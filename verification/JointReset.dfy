/** The client's RSET, which its error handler sends, and the server's answer to it. */
module JointReset {
  import opened Text
  import opened Outcomes
  import opened Connection
  import opened ClientLaws
  import opened ServerLaws
  import S = ServerSession

  lemma ResetGoes(c: Conn, i: Input)
    requires InOrder(c) && c.cur == SEND_RSET && i.io == Done
    ensures Step(c, i).0 == c.(cur := RECEIVE_RSET_RESPONSE, prev := SEND_RSET, log := c.log + [Sent(Rset)])
    ensures Wire(Rset) == "RSET" + "\r\n"
  {
    CommandSteps(c, i);
    assert "RSET" + "\r\n" == "RSET\r\n";
  }

  lemma ResetAccepted(c: Conn, i: Input)
    requires !c.crashed && c.cur == RECEIVE_RSET_RESPONSE && c.prev == SEND_RSET && c.pool != []
    requires i.io == Done && i.reply == "250 Ok reset\r\n"
    ensures Step(c, i).0 == c.(cur := SEND_MAIL_FROM, prev := RECEIVE_RSET_RESPONSE, log := c.log + [Got(i.reply)])
  {
    assert i.reply[..3] == "250";
    FarewellLeads(c, i);
  }

  /** What a client sends after a failed transaction is a line that empties the server's envelope, and the text of the
      server's reply makes the client go on with its next letter. */
  lemma ResetUnderstood(c: Conn, s: S.Session, sending: Input, hearing: Input, e: S.LineInput)
    requires InOrder(c) && c.cur == SEND_RSET && c.pool != [] && sending.io == Done && hearing.io == Done
    requires !s.textMode && 8 <= s.phase <= 10
    ensures Step(c, sending).0.log == c.log + [Sent(Rset)] && Wire(Rset) == "RSET" + "\r\n"
    ensures var d := S.Line(s, "RSET", e);
            && d == s.(from := None, to := [], phase := 8, log := d.log)
            && (Told(s, d, "RSET", e, hearing.reply) ==>
                  var c' := Step(Step(c, sending).0, hearing).0;
                  c'.cur == SEND_MAIL_FROM && c'.pool == c.pool && c'.attempt == c.attempt)
  {
    ResetGoes(c, sending);
    OnRset(s, "RSET", e);
    var d := S.Line(s, "RSET", e);
    if Told(s, d, "RSET", e, hearing.reply) {
      ToldOnce(s, d, e, hearing.reply, "250 Ok reset\r\n");
      ResetAccepted(Step(c, sending).0, hearing);
    }
  }

  lemma ToldOnce(s: S.Session, d: S.Session, e: S.LineInput, a: string, b: string)
    requires Told(s, d, "RSET", e, a) && Told(s, d, "RSET", e, b)
    ensures a == b
  {
    assert S.ReplyText(d.log[|s.log|].answers[0].reply) == [a][0] == [b][0];
  }
}
