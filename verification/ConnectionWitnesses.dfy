/** Runs that show the bad ends of a connection can be reached: each of the three stuck states, and the null pointer. */
module ConnectionWitnesses {
  import opened Text
  import opened Outcomes
  import opened Connection
  import opened ConnectionRuns
  import opened ConnectionTheorems
  import E = EndToEnd
  import S = ServerSession

  function Reply(r: S.Reply): Input { E.Heard(S.ReplyText(r)) }

  /** The next send succeeds. */
  function Going(): Input { E.Heard("") }

  /** The next send or receive fails. */
  function Failing(): Input { Going().(io := Broken) }

  lemma RunNext(c: Conn, inputs: seq<Input>, i: Input)
    ensures Run(c, inputs + [i]) == Step(Run(c, inputs), i).0
  {
    assert (inputs + [i])[..|inputs|] == inputs;
  }

  predicate Stands(d: Conn, cur: State, prev: State) { !d.crashed && d.cur == cur && d.prev == prev }

  lemma Greeted(d: Conn)
    requires Stands(d, RECEIVE_SMTP_GREETING, PREPARE_SOCKET_CONNECTION) && TEST_PREFIX <= d.domain
    ensures var d' := Step(d, Reply(S.Greeting220)).0; Stands(d', SEND_EHLO, RECEIVE_SMTP_GREETING) && d'.pool == d.pool
  {
    E.GreetingCode();
    var reply := S.ReplyText(S.Greeting220);
    assert Step(d, Reply(S.Greeting220)) == ReceiveStep(d, Reply(S.Greeting220));
    assert Verdict(d.cur, reply, d.domain) == 0 && !HangsUp(d.cur, reply);
  }

  lemma EhloHeard(d: Conn)
    requires Stands(d, RECEIVE_EHLO_RESPONSE, SEND_EHLO)
    ensures var d' := Step(d, Reply(S.Named250(MY_DOMAIN))).0;
            Stands(d', SEND_MAIL_FROM, RECEIVE_EHLO_RESPONSE) && d'.pool == d.pool && d'.attempt == 0
  {
    E.ClientWelcomed(d);
  }

  lemma OkHeard(d: Conn)
    requires Stands(d, RECEIVE_MAIL_FROM_RESPONSE, SEND_MAIL_FROM) || Stands(d, RECEIVE_RCPT_TO_RESPONSE, SEND_RCPT_TO)
    ensures var d' := Step(d, Reply(S.Ok250)).0;
            Stands(d', d.cur + 1, d.cur) && d'.pool == d.pool && d'.attempt == d.attempt
  {
    E.OkCode();
    var reply := S.ReplyText(S.Ok250);
    assert Step(d, Reply(S.Ok250)) == ReceiveStep(d, Reply(S.Ok250));
    assert Verdict(d.cur, reply, d.domain) == 0 && !HangsUp(d.cur, reply);
  }

  lemma MailboxCode()
    ensures StatusCode(S.ReplyText(S.Mailbox450)) == 450
  {
    var reply := S.ReplyText(S.Mailbox450);
    assert reply[0] == '4' && reply[1] == '5' && reply[2] == '0';
    CodeOf(reply);
  }

  /** A recipient the server does not take. */
  lemma RecipientRejected(d: Conn)
    requires Stands(d, RECEIVE_RCPT_TO_RESPONSE, SEND_RCPT_TO)
    ensures Stands(Step(d, Reply(S.Mailbox450)).0, SMTP_ERROR, SEND_RCPT_TO)
  {
    MailboxCode();
    var reply := S.ReplyText(S.Mailbox450);
    assert Step(d, Reply(S.Mailbox450)) == ReceiveStep(d, Reply(S.Mailbox450));
    assert Verdict(d.cur, reply, d.domain) < 0 && !HangsUp(d.cur, reply);
  }

  lemma CommandSent(d: Conn)
    requires !d.crashed && Sends(d.cur) && Follows(d.cur, d.prev) && d.cur != SEND_LETTER && d.pool != []
    ensures var d' := Step(d, Going()).0; Stands(d', d.cur + 1, d.cur) && d'.pool == d.pool && d'.attempt == d.attempt
    ensures d.cur != SEND_MAIL_FROM ==>
              var d' := Step(d, Failing()).0; Stands(d', SMTP_ERROR, d.prev) && d'.attempt == d.attempt
  {
    assert Step(d, Going()) == SendStep(d, Going()) && Step(d, Failing()) == SendStep(d, Failing());
  }

  /** Up to the reply to the recipient. */
  function ToRecipient(): seq<Input> { ToCommand() + [Going()] }

  /** Up to the sending of the recipient. */
  function ToCommand(): seq<Input> {
    ToMail() + [Going()] + [Reply(S.Ok250)]
  }

  function ToMail(): seq<Input> {
    [] + [Reply(S.Greeting220)] + [Going()] + [Reply(S.Named250(MY_DOMAIN))]
  }

  lemma RunsToMail(c: Conn)
    requires Fresh(c) && TEST_PREFIX <= c.domain
    ensures var d := Run(c, ToMail());
            Stands(d, SEND_MAIL_FROM, RECEIVE_EHLO_RESPONSE) && d.attempt == 0 && d.pool == c.pool
  {
    var t: seq<Input> := [] + [Reply(S.Greeting220)];
    RunNext(c, [], Reply(S.Greeting220));
    Greeted(c);
    RunNext(c, t, Going());
    CommandSent(Run(c, t));
    RunNext(c, t + [Going()], Reply(S.Named250(MY_DOMAIN)));
    EhloHeard(Run(c, t + [Going()]));
  }

  lemma RunsToRecipient(c: Conn)
    requires Fresh(c) && TEST_PREFIX <= c.domain
    ensures var d := Run(c, ToCommand());
            Stands(d, SEND_RCPT_TO, RECEIVE_MAIL_FROM_RESPONSE) && d.attempt == 0 && d.pool == c.pool
    ensures var d := Run(c, ToRecipient()); Stands(d, RECEIVE_RCPT_TO_RESPONSE, SEND_RCPT_TO) && d.pool == c.pool
  {
    RunsToMail(c);
    RunNext(c, ToMail(), Going());
    CommandSent(Run(c, ToMail()));
    RunNext(c, ToMail() + [Going()], Reply(S.Ok250));
    OkHeard(Run(c, ToMail() + [Going()]));
    RunNext(c, ToCommand(), Going());
    CommandSent(Run(c, ToCommand()));
  }

  lemma Recovers(d: Conn)
    requires Stands(d, SMTP_ERROR, RECEIVE_MAIL_FROM_RESPONSE) && d.attempt == 0
    ensures var d' := Step(d, Going()).0; Stands(d', SEND_RSET, SMTP_ERROR) && d'.pool == d.pool
  {
  }

  /** A rejected recipient, a failure to send DATA, and a failure to send RSET each leave the connection stuck for
      ever, whatever letters it has. */
  lemma StuckReachable(c: Conn)
    requires Fresh(c) && TEST_PREFIX <= c.domain
    ensures Stands(Run(c, ToRecipient() + [Reply(S.Mailbox450)]), SMTP_ERROR, SEND_RCPT_TO)
    ensures Stands(Run(c, ToRecipient() + [Reply(S.Ok250)] + [Failing()]), SMTP_ERROR, RECEIVE_RCPT_TO_RESPONSE)
    ensures Stands(Run(c, ToCommand() + [Failing()] + [Going()] + [Failing()]), SMTP_ERROR, SMTP_ERROR)
  {
    RunsToRecipient(c);
    RecipientSticks(c, ToRecipient());
    RecoverySticks(c, ToCommand());
  }

  lemma RecipientSticks(c: Conn, t: seq<Input>)
    requires Stands(Run(c, t), RECEIVE_RCPT_TO_RESPONSE, SEND_RCPT_TO) && Run(c, t).pool != []
    ensures Stands(Run(c, t + [Reply(S.Mailbox450)]), SMTP_ERROR, SEND_RCPT_TO)
    ensures Stands(Run(c, t + [Reply(S.Ok250)] + [Failing()]), SMTP_ERROR, RECEIVE_RCPT_TO_RESPONSE)
  {
    RunNext(c, t, Reply(S.Mailbox450));
    RecipientRejected(Run(c, t));
    RunNext(c, t, Reply(S.Ok250));
    OkHeard(Run(c, t));
    RunNext(c, t + [Reply(S.Ok250)], Failing());
    CommandSent(Run(c, t + [Reply(S.Ok250)]));
  }

  lemma RecoverySticks(c: Conn, t: seq<Input>)
    requires Stands(Run(c, t), SEND_RCPT_TO, RECEIVE_MAIL_FROM_RESPONSE)
    requires Run(c, t).attempt == 0 && Run(c, t).pool != []
    ensures Stands(Run(c, t + [Failing()] + [Going()] + [Failing()]), SMTP_ERROR, SMTP_ERROR)
  {
    var u := t + [Failing()];
    RunNext(c, t, Failing());
    CommandSent(Run(c, t));
    RunNext(c, u, Going());
    Recovers(Run(c, u));
    RunNext(c, u + [Going()], Failing());
    RsetFails(Run(c, u + [Going()]));
  }

  lemma RsetFails(d: Conn)
    requires Stands(d, SEND_RSET, SMTP_ERROR)
    ensures Stands(Step(d, Failing()).0, SMTP_ERROR, SMTP_ERROR)
  {
  }

  // ------------------------------------------------------------ the null pointer

  /** Where a connection with one letter stands while `attempt` is `n`. */
  predicate On(d: Conn, cur: State, prev: State, n: int) { Stands(d, cur, prev) && |d.pool| == 1 && d.attempt == n }

  lemma MailRejected(d: Conn)
    requires On(d, RECEIVE_MAIL_FROM_RESPONSE, SEND_MAIL_FROM, 0)
    ensures On(Step(d, Reply(S.Mailbox450)).0, SMTP_ERROR, SEND_MAIL_FROM, 0)
  {
    MailboxCode();
    var reply := S.ReplyText(S.Mailbox450);
    assert Step(d, Reply(S.Mailbox450)) == ReceiveStep(d, Reply(S.Mailbox450));
    assert Verdict(d.cur, reply, d.domain) < 0 && !HangsUp(d.cur, reply);
  }

  lemma TriesAgain(d: Conn)
    requires On(d, SMTP_ERROR, SEND_MAIL_FROM, 0)
    ensures On(Step(d, Going()).0, SEND_RSET, SMTP_ERROR, 1)
  {
  }

  lemma ResetHeard(d: Conn)
    requires On(d, RECEIVE_RSET_RESPONSE, SEND_RSET, 1)
    ensures On(Step(d, Reply(S.Reset250)).0, SEND_MAIL_FROM, RECEIVE_RSET_RESPONSE, 1)
  {
    E.ResetCode();
    var reply := S.ReplyText(S.Reset250);
    assert Step(d, Reply(S.Reset250)) == ReceiveStep(d, Reply(S.Reset250));
    assert Verdict(d.cur, reply, d.domain) == 0 && !HangsUp(d.cur, reply);
  }

  lemma DataHeard(d: Conn, n: int)
    requires On(d, RECEIVE_DATA_RESPONSE, SEND_DATA, n)
    ensures On(Step(d, Reply(S.Start354)).0, SEND_LETTER, RECEIVE_DATA_RESPONSE, n)
  {
    E.StartCode();
    var reply := S.ReplyText(S.Start354);
    assert Step(d, Reply(S.Start354)) == ReceiveStep(d, Reply(S.Start354));
    assert Verdict(d.cur, reply, d.domain) == 0 && !HangsUp(d.cur, reply);
  }

  lemma {:induction false} SpokenFreely(content: string, pos: nat, chunks: nat -> IO, k: nat)
    requires pos <= |content| && forall j :: chunks(j) == Done
    ensures Speak(content, pos, chunks, k).outcome == Done
    decreases |content| - pos
  {
    if pos < |content| {
      SpokenFreely(content, ChunkEnd(content, pos), chunks, k + 1);
    }
  }

  lemma LetterSpoken(d: Conn, n: int)
    requires On(d, SEND_LETTER, RECEIVE_DATA_RESPONSE, n)
    ensures On(Step(d, Going()).0, RECEIVE_LETTER_RESPONSE, SEND_LETTER, n)
  {
    var content := d.pool[0].content;
    SpokenFreely(content, if d.file.Some? && d.file.value <= |content| then d.file.value else 0, Going().chunks, 0);
    assert Step(d, Going()) == SendStep(d, Going());
  }

  lemma LetterAccepted(d: Conn, n: int)
    requires On(d, RECEIVE_LETTER_RESPONSE, SEND_LETTER, n)
    ensures var d' := Step(d, Reply(S.Ok250)).0;
            Stands(d', SEND_QUIT, RECEIVE_LETTER_RESPONSE) && d'.attempt == n && d'.pool == []
  {
    E.OkCode();
    var reply := S.ReplyText(S.Ok250);
    assert Step(d, Reply(S.Ok250)) == ReceiveStep(d, Reply(S.Ok250));
    assert Verdict(d.cur, reply, d.domain) == 0 && !HangsUp(d.cur, reply);
  }

  lemma QuitCrashes(d: Conn)
    requires Stands(d, SEND_QUIT, RECEIVE_LETTER_RESPONSE) && d.attempt == 1 && d.pool == []
    ensures Step(Step(d, Failing()).0, Going()).0.crashed
  {
  }

  /** From MAIL up to the acknowledged letter. */
  function Transaction(): seq<Input> { ToData() + [Reply(S.Start354)] + [Going()] + [Reply(S.Ok250)] }

  function ToData(): seq<Input> { [] + [Going()] + [Reply(S.Ok250)] + [Going()] + [Reply(S.Ok250)] + [Going()] }

  lemma RunsToData(c: Conn, t: seq<Input>, n: int)
    requires On(Run(c, t), SEND_MAIL_FROM, Run(c, t).prev, n) && Follows(SEND_MAIL_FROM, Run(c, t).prev)
    ensures On(Run(c, t + ToData()), RECEIVE_DATA_RESPONSE, SEND_DATA, n)
  {
    var t1 := t + [Going()];
    var t2 := t1 + [Reply(S.Ok250)];
    RunNext(c, t, Going());
    CommandSent(Run(c, t));
    RunNext(c, t1, Reply(S.Ok250));
    OkHeard(Run(c, t1));
    RunsFromRecipient(c, t2, n);
    assert t + ToData() == t2 + [Going()] + [Reply(S.Ok250)] + [Going()];
  }

  lemma RunsFromRecipient(c: Conn, t: seq<Input>, n: int)
    requires On(Run(c, t), SEND_RCPT_TO, RECEIVE_MAIL_FROM_RESPONSE, n)
    ensures On(Run(c, t + [Going()] + [Reply(S.Ok250)] + [Going()]), RECEIVE_DATA_RESPONSE, SEND_DATA, n)
  {
    var t1 := t + [Going()];
    var t2 := t1 + [Reply(S.Ok250)];
    RunNext(c, t, Going());
    CommandSent(Run(c, t));
    RunNext(c, t1, Reply(S.Ok250));
    OkHeard(Run(c, t1));
    RunNext(c, t2, Going());
    CommandSent(Run(c, t2));
  }

  lemma RunsTransaction(c: Conn, t: seq<Input>, n: int)
    requires On(Run(c, t), SEND_MAIL_FROM, Run(c, t).prev, n) && Follows(SEND_MAIL_FROM, Run(c, t).prev)
    ensures var d := Run(c, t + Transaction());
            Stands(d, SEND_QUIT, RECEIVE_LETTER_RESPONSE) && d.attempt == n && d.pool == []
  {
    RunsToData(c, t, n);
    RunsFromData(c, t + ToData(), n);
    assert t + Transaction() == t + ToData() + [Reply(S.Start354)] + [Going()] + [Reply(S.Ok250)];
  }

  lemma RunsFromData(c: Conn, t: seq<Input>, n: int)
    requires On(Run(c, t), RECEIVE_DATA_RESPONSE, SEND_DATA, n)
    ensures var d := Run(c, t + [Reply(S.Start354)] + [Going()] + [Reply(S.Ok250)]);
            Stands(d, SEND_QUIT, RECEIVE_LETTER_RESPONSE) && d.attempt == n && d.pool == []
  {
    var t1 := t + [Reply(S.Start354)];
    var t2 := t1 + [Going()];
    RunNext(c, t, Reply(S.Start354));
    DataHeard(Run(c, t), n);
    RunNext(c, t1, Going());
    LetterSpoken(Run(c, t1), n);
    RunNext(c, t2, Reply(S.Ok250));
    LetterAccepted(Run(c, t2), n);
  }

  lemma FirstTry(c: Conn, t: seq<Input>)
    requires On(Run(c, t), SEND_MAIL_FROM, RECEIVE_EHLO_RESPONSE, 0)
    ensures On(Run(c, t + [Going()] + [Reply(S.Mailbox450)] + [Going()] + [Going()] + [Reply(S.Reset250)]),
               SEND_MAIL_FROM, RECEIVE_RSET_RESPONSE, 1)
  {
    var t1 := t + [Going()];
    var t2 := t1 + [Reply(S.Mailbox450)];
    var t3 := t2 + [Going()];
    var t4 := t3 + [Going()];
    RunNext(c, t, Going());
    CommandSent(Run(c, t));
    RunNext(c, t1, Reply(S.Mailbox450));
    MailRejected(Run(c, t1));
    RunNext(c, t2, Going());
    TriesAgain(Run(c, t2));
    RunNext(c, t3, Going());
    CommandSent(Run(c, t3));
    RunNext(c, t4, Reply(S.Reset250));
    ResetHeard(Run(c, t4));
  }

  /** A letter taken on its second try, after which QUIT cannot be sent, makes the recovery follow a null pointer. */
  lemma CrashReachable(c: Conn)
    requires Fresh(c) && TEST_PREFIX <= c.domain && |c.pool| == 1
    ensures exists inputs :: Run(c, inputs).crashed
  {
    RunsToMail(c);
    FirstTry(c, ToMail());
    CrashFrom(c, ToMail() + [Going()] + [Reply(S.Mailbox450)] + [Going()] + [Going()] + [Reply(S.Reset250)]);
  }

  lemma CrashFrom(c: Conn, t: seq<Input>)
    requires On(Run(c, t), SEND_MAIL_FROM, RECEIVE_RSET_RESPONSE, 1)
    ensures exists inputs :: Run(c, inputs).crashed
  {
    RunsTransaction(c, t, 1);
    var u := t + Transaction();
    RunNext(c, u, Failing());
    RunNext(c, u + [Failing()], Going());
    QuitCrashes(Run(c, u));
    assert Run(c, u + [Failing()] + [Going()]).crashed;
  }

  // ------------------------------------------------------- returned untried

  /** A letter, the first of its pool, offered `n` times since the last move. */
  predicate Offered(d: Conn, cur: State, prev: State, n: nat) {
    Stands(d, cur, prev) && d.pool != [] && Offers(d.log) == n
  }

  lemma OfferRefused(c: Conn, t: seq<Input>, n: nat)
    requires Offered(Run(c, t), SEND_MAIL_FROM, Run(c, t).prev, n) && Follows(SEND_MAIL_FROM, Run(c, t).prev)
    ensures var d := Run(c, t + [Going()] + [Reply(S.Mailbox450)]);
            Offered(d, SMTP_ERROR, SEND_MAIL_FROM, n + 1) && d.pool == Run(c, t).pool && d.attempt == Run(c, t).attempt
  {
    var d := Run(c, t);
    RunNext(c, t, Going());
    CommandSent(d);
    OffersOne(d.log, Sent(Mail(d.pool[0].from)));
    RunNext(c, t + [Going()], Reply(S.Mailbox450));
    OfferAnswered(Run(c, t + [Going()]), n + 1);
  }

  lemma OfferAnswered(d: Conn, n: nat)
    requires Offered(d, RECEIVE_MAIL_FROM_RESPONSE, SEND_MAIL_FROM, n)
    ensures var d' := Step(d, Reply(S.Mailbox450)).0;
            Offered(d', SMTP_ERROR, SEND_MAIL_FROM, n) && d'.pool == d.pool && d'.attempt == d.attempt
  {
    MailboxCode();
    var reply := S.ReplyText(S.Mailbox450);
    OffersOne(d.log, Got(reply));
    assert Step(d, Reply(S.Mailbox450)) == ReceiveStep(d, Reply(S.Mailbox450));
    assert Verdict(d.cur, reply, d.domain) < 0 && !HangsUp(d.cur, reply);
  }

  lemma ResetSent(d: Conn, n: nat)
    requires Offered(d, SEND_RSET, SMTP_ERROR, n)
    ensures var d' := Step(d, Going()).0;
            Offered(d', RECEIVE_RSET_RESPONSE, SEND_RSET, n) && d'.pool == d.pool && d'.attempt == d.attempt
  {
    OffersOne(d.log, Sent(Rset));
  }

  lemma ResetAnswered(d: Conn, n: nat)
    requires Offered(d, RECEIVE_RSET_RESPONSE, SEND_RSET, n)
    ensures var d' := Step(d, Reply(S.Reset250)).0;
            Offered(d', SEND_MAIL_FROM, RECEIVE_RSET_RESPONSE, n) && d'.pool == d.pool && d'.attempt == d.attempt
  {
    E.ResetCode();
    var reply := S.ReplyText(S.Reset250);
    OffersOne(d.log, Got(reply));
    assert Step(d, Reply(S.Reset250)) == ReceiveStep(d, Reply(S.Reset250));
    assert Verdict(d.cur, reply, d.domain) == 0 && !HangsUp(d.cur, reply);
  }

  lemma RecoveredOnce(d: Conn, n: nat)
    requires Offered(d, SMTP_ERROR, SEND_MAIL_FROM, n)
    ensures var d' := Step(d, Going()).0;
            && (d.attempt == 0 ==> Offered(d', SEND_RSET, SMTP_ERROR, n) && d'.pool == d.pool && d'.attempt == 1)
            && (d.attempt == 1 && |d.pool| > 1 ==>
                  Offered(d', SEND_RSET, SMTP_ERROR, 0) && d'.pool == d.pool[1..] && d'.attempt == 1)
  {
    OffersOne(d.log, Moved(d.pool[0], New));
  }

  /** MAIL refused, and what follows up to the next MAIL. */
  function Refusal(): seq<Input> {
    [] + [Going()] + [Reply(S.Mailbox450)] + [Going()] + [Going()] + [Reply(S.Reset250)]
  }

  lemma RefusalReset(c: Conn, t: seq<Input>, n: nat)
    requires Offered(Run(c, t), SMTP_ERROR, SEND_MAIL_FROM, n)
    requires Run(c, t).attempt == 0 || (Run(c, t).attempt == 1 && |Run(c, t).pool| > 1)
    ensures var (d, d') := (Run(c, t), Run(c, t + [Going()] + [Going()] + [Reply(S.Reset250)]));
            && Offered(d', SEND_MAIL_FROM, RECEIVE_RSET_RESPONSE, if d.attempt == 0 then n else 0)
            && d'.pool == (if d.attempt == 0 then d.pool else d.pool[1..]) && d'.attempt == 1
  {
    var m := if Run(c, t).attempt == 0 then n else 0;
    RunNext(c, t, Going());
    RecoveredOnce(Run(c, t), n);
    RunNext(c, t + [Going()], Going());
    ResetSent(Run(c, t + [Going()]), m);
    RunNext(c, t + [Going()] + [Going()], Reply(S.Reset250));
    ResetAnswered(Run(c, t + [Going()] + [Going()]), m);
  }

  lemma Refused(c: Conn, t: seq<Input>, n: nat)
    requires Offered(Run(c, t), SEND_MAIL_FROM, Run(c, t).prev, n) && Follows(SEND_MAIL_FROM, Run(c, t).prev)
    requires Run(c, t).attempt == 0 || (Run(c, t).attempt == 1 && |Run(c, t).pool| > 1)
    ensures var (d, d') := (Run(c, t), Run(c, t + Refusal()));
            && Offered(d', SEND_MAIL_FROM, RECEIVE_RSET_RESPONSE, if d.attempt == 0 then n + 1 else 0)
            && d'.pool == (if d.attempt == 0 then d.pool else d.pool[1..]) && d'.attempt == 1
  {
    OfferRefused(c, t, n);
    var u := t + [Going()] + [Reply(S.Mailbox450)];
    RefusalReset(c, u, n + 1);
    assert t + Refusal() == u + [Going()] + [Going()] + [Reply(S.Reset250)];
  }

  /** Of two letters the first is refused twice and the second only once: both are returned. */
  lemma ReturnedAfterOneOffer(c: Conn)
    requires Fresh(c) && TEST_PREFIX <= c.domain && |c.pool| == 2
    ensures exists inputs :: ReturnsAfterOneOffer(Run(c, inputs), c.pool[1])
  {
    RunsToMail(c);
    NotOffered(c, ToMail());
    BothReturned(c, ToMail());
  }

  lemma BothReturned(c: Conn, t: seq<Input>)
    requires Offered(Run(c, t), SEND_MAIL_FROM, RECEIVE_EHLO_RESPONSE, 0)
    requires Run(c, t).attempt == 0 && |Run(c, t).pool| == 2
    ensures exists inputs :: ReturnsAfterOneOffer(Run(c, inputs), Run(c, t).pool[1])
  {
    FirstReturned(c, t);
    LastReturnedToo(c, t + Refusal() + Refusal());
  }

  lemma FirstReturned(c: Conn, t: seq<Input>)
    requires Offered(Run(c, t), SEND_MAIL_FROM, RECEIVE_EHLO_RESPONSE, 0)
    requires Run(c, t).attempt == 0 && |Run(c, t).pool| > 1
    ensures var d := Run(c, t + Refusal() + Refusal());
            Offered(d, SEND_MAIL_FROM, RECEIVE_RSET_RESPONSE, 0) && d.attempt == 1 && d.pool == Run(c, t).pool[1..]
  {
    Refused(c, t, 0);
    Refused(c, t + Refusal(), 1);
  }

  lemma LastReturnedToo(c: Conn, t: seq<Input>)
    requires Offered(Run(c, t), SEND_MAIL_FROM, RECEIVE_RSET_RESPONSE, 0)
    requires Run(c, t).attempt == 1 && |Run(c, t).pool| == 1
    ensures ReturnsAfterOneOffer(Run(c, t + [Going()] + [Reply(S.Mailbox450)]), Run(c, t).pool[0])
  {
    OfferRefused(c, t, 0);
    RecoveredLast(Run(c, t + [Going()] + [Reply(S.Mailbox450)]), Run(c, t).pool[0]);
  }

  /** The letter was offered once, and the next step returns it. */
  predicate ReturnsAfterOneOffer(d: Conn, l: Letter) {
    Offers(d.log) == 1 && d.pool == [l] && Step(d, Going()).0.log == d.log + [Moved(l, New)]
  }

  lemma RecoveredLast(d: Conn, l: Letter)
    requires Offered(d, SMTP_ERROR, SEND_MAIL_FROM, 1) && d.attempt == 1 && d.pool == [l]
    ensures ReturnsAfterOneOffer(d, l)
  {
  }

  lemma NotOffered(c: Conn, t: seq<Input>)
    requires Fresh(c) && Stands(Run(c, t), SEND_MAIL_FROM, RECEIVE_EHLO_RESPONSE) && Run(c, t).attempt == 0
    ensures Offers(Run(c, t).log) == 0
  {
    RunSound(c, t);
  }

  // ---------------------------------------------------------------- a lost text

  /** Every send of the sending loop would block. */
  function Blocking(): Input { Going().(chunks := _ => WouldBlock) }

  /** The only chunk of a letter is read, and its send would block: the file stands at its end. */
  lemma ChunkLost(d: Conn, n: int)
    requires On(d, SEND_LETTER, RECEIVE_DATA_RESPONSE, n) && d.file == None && |Pieces(d.pool[0].content, 0)| == 1
    ensures var (d', content) := (Step(d, Blocking()).0, d.pool[0].content);
            d' == d.(file := Some(|content|), log := d.log + [Missed(Pieces(content, 0)[0])])
  {
    var content := d.pool[0].content;
    var e := ChunkEnd(content, 0);
    SpeakNext(content, 0, Blocking().chunks, 0);
    assert Pieces(content, e) == Pieces(content, 0)[1..];
    var t := Pieces(content, 0)[0];
    assert Tried([Try(t, false)]) == [Missed(t)];
    assert Step(d, Blocking()) == LetterStep(d, Blocking());
  }

  /** Called again, the loop finds the file at its end and sends the terminator at once. */
  lemma OnlyTerminator(d: Conn, n: int)
    requires On(d, SEND_LETTER, RECEIVE_DATA_RESPONSE, n) && d.file == Some(|d.pool[0].content|)
    ensures var d' := Step(d, Going()).0;
            && On(d', RECEIVE_LETTER_RESPONSE, SEND_LETTER, n)
            && d'.pool == d.pool && d'.log == d.log + [Sent(EndOfLetter)]
  {
    assert Step(d, Going()) == LetterStep(d, Going());
    assert d.log + Tried([]) == d.log;
  }

  lemma FilingLogged(d: Conn)
    requires On(d, RECEIVE_LETTER_RESPONSE, SEND_LETTER, d.attempt)
    ensures Step(d, Reply(S.Ok250)).0.log
            == d.log + [Got(S.ReplyText(S.Ok250))] + [Moved(d.pool[0], Current)] + [Forgot(d.domain)]
  {
    E.OkCode();
    var reply := S.ReplyText(S.Ok250);
    assert Step(d, Reply(S.Ok250)) == ReceiveStep(d, Reply(S.Ok250));
    assert Verdict(d.cur, reply, d.domain) == 0 && !HangsUp(d.cur, reply);
  }

  /** `log` files `l` at `j` without any of its text having been sent since the 354 reply. */
  predicate FilesTextless(log: seq<Action>, j: nat, l: Letter) {
    2 <= j < |log| && log[j] == Moved(l, Current) && SentText(log[..j - 2]) == [] && LostText(log[..j - 2]) > 0
  }

  lemma TextlessLog(before: seq<Action>, got: Action, missed: string, ok: string, l: Letter, domain: string)
    requires got.Got?
    ensures var log := before + [got] + [Missed(missed)] + [Sent(EndOfLetter)] + [Got(ok)]
                       + [Moved(l, Current)] + [Forgot(domain)];
            FilesTextless(log, |before| + 4, l)
  {
    var base := before + [got];
    var log := base + [Missed(missed)] + [Sent(EndOfLetter)] + [Got(ok)] + [Moved(l, Current)] + [Forgot(domain)];
    assert log[..|before| + 2] == base + [Missed(missed)];
    assert (base + [Missed(missed)])[..|base|] == base;
  }

  lemma TextlessFrom(c: Conn, t: seq<Input>)
    requires var d := Run(c, t);
             On(d, RECEIVE_DATA_RESPONSE, SEND_DATA, 0) && d.file == None && |Pieces(d.pool[0].content, 0)| == 1
    ensures exists inputs, j :: FilesTextless(Run(c, inputs).log, j, Run(c, t).pool[0])
  {
    var d := Run(c, t);
    var t1 := t + [Reply(S.Start354)];
    var t2 := t1 + [Blocking()];
    var t3 := t2 + [Going()];
    RunNext(c, t, Reply(S.Start354));
    StartLogged(d);
    RunNext(c, t1, Blocking());
    ChunkLost(Run(c, t1), 0);
    RunNext(c, t2, Going());
    OnlyTerminator(Run(c, t2), 0);
    RunNext(c, t3, Reply(S.Ok250));
    FilingLogged(Run(c, t3));
    var l := d.pool[0];
    TextlessLog(d.log, Got(S.ReplyText(S.Start354)), Pieces(l.content, 0)[0], S.ReplyText(S.Ok250), l,
                Run(c, t3).domain);
    assert FilesTextless(Run(c, t3 + [Reply(S.Ok250)]).log, |d.log| + 4, l);
  }

  lemma StartLogged(d: Conn)
    requires On(d, RECEIVE_DATA_RESPONSE, SEND_DATA, 0)
    ensures var d' := Step(d, Reply(S.Start354)).0;
            && On(d', SEND_LETTER, RECEIVE_DATA_RESPONSE, 0) && d'.pool == d.pool && d'.file == d.file
            && d'.log == d.log + [Got(S.ReplyText(S.Start354))]
  {
    DataHeard(d, 0);
    E.StartCode();
    var reply := S.ReplyText(S.Start354);
    assert Step(d, Reply(S.Start354)) == ReceiveStep(d, Reply(S.Start354));
    assert Verdict(d.cur, reply, d.domain) == 0 && !HangsUp(d.cur, reply);
  }

  /** A letter of one chunk whose send would block once is filed as sent with none of its text sent. */
  lemma FiledWithoutText(c: Conn)
    requires Fresh(c) && TEST_PREFIX <= c.domain && |c.pool| == 1 && |Pieces(c.pool[0].content, 0)| == 1
    ensures exists inputs, j :: FilesTextless(Run(c, inputs).log, j, c.pool[0])
  {
    RunsToMail(c);
    RunsToData(c, ToMail(), 0);
    var t := ToMail() + ToData();
    RunSound(c, t);
    KeptPool(c, t);
    TextlessFrom(c, t);
  }

  /** The pool is a tail of the initial pool: with one letter left of one, it is the same. */
  lemma KeptPool(c: Conn, t: seq<Input>)
    requires Fresh(c) && |c.pool| == 1 && |Run(c, t).pool| == 1
    ensures Run(c, t).pool == c.pool
  {
    Conservation(c, t);
    var d := Run(c, t);
    assert |Handed(d.log) + d.pool| == 1;
    assert Handed(d.log) == [] && [] + d.pool == d.pool;
  }
}
