/**
 The generated transition tables of client and server, and how the hand-written handlers follow them: each step of a
 handler is a short path in its table, with the exceptions named here.
 */
module FsmTables {
  import opened Text
  import opened Outcomes
  import C = Connection
  import R = ConnectionRuns
  import S = ServerSession

  // -------------------------------------------------------------- server table

  datatype ServerEvent =
    | HANDLE_HELO | HANDLE_EHLO | HANDLE_MAIL | HANDLE_RCPT | HANDLE_RSET | HANDLE_DATA | HANDLE_QUIT | HANDLE_NOOP
    | HANDLE_NOT_IMPLEMENTED | HANDLE_TEXT | CONNECTION_ESTABLISHED | CONNECTION_FAILED | MESSAGE_SAVED | TEXT
    | CLRF_DOT_CLRF

  /** Table states in the order of the enumeration: INIT, then the seven socket states, then INVALID. */
  type TableState = int

  const SERVER_INVALID: TableState := 8

  function ServerNext(st: TableState, ev: ServerEvent): TableState {
    if !(0 <= st <= 7) then SERVER_INVALID
    else match ev
      case CONNECTION_ESTABLISHED => 1
      case CONNECTION_FAILED => if 1 <= st <= 5 then 7 else SERVER_INVALID
      case HANDLE_HELO => if st == 1 then 2 else SERVER_INVALID
      case HANDLE_MAIL => if st == 2 then 3 else SERVER_INVALID
      case HANDLE_RCPT => if st == 3 || st == 4 then 4 else SERVER_INVALID
      case HANDLE_RSET => if 2 <= st <= 4 then 2 else SERVER_INVALID
      case HANDLE_DATA => if st == 4 then 5 else SERVER_INVALID
      case HANDLE_QUIT => if 1 <= st <= 4 then 7 else SERVER_INVALID
      case HANDLE_NOOP => if 1 <= st <= 4 then st else SERVER_INVALID
      case TEXT => if st == 5 then 5 else SERVER_INVALID
      case CLRF_DOT_CLRF => if st == 5 then 6 else SERVER_INVALID
      case MESSAGE_SAVED => if st == 6 then 2 else SERVER_INVALID
      case _ => SERVER_INVALID
  }

  function ServerRun(st: TableState, evs: seq<ServerEvent>): TableState
    decreases |evs|
  {
    if evs == [] then st else ServerRun(ServerNext(st, evs[0]), evs[1..])
  }

  /** The socket state's place in the table: the greeting state is the table's initial state. */
  function ServerState(p: S.Phase): TableState { p - S.SEND_GREETING }

  /** The table events a line stands for: none when the line is refused, faults, or its reply could not be sent in
      time; EHLO is read as HELO; the final dot is the dot event followed by the saving of the message. */
  function LineEvents(s: S.Session, line: string, e: S.LineInput): seq<ServerEvent> {
    if s.textMode then
      if line == "." then [CLRF_DOT_CLRF, MESSAGE_SAVED] else [TEXT]
    else match S.VerbOf(line)
      case HELO => if s.phase == S.INIT && e.io != WouldBlock && !S.Faults(s, line) then [HANDLE_HELO] else []
      case EHLO => if s.phase == S.INIT && e.io != WouldBlock then [HANDLE_HELO] else []
      case MAIL => if s.phase == S.WAIT && S.Usable(S.MailAddress(line)) then [HANDLE_MAIL] else []
      case RCPT =>
        if (s.phase == S.MAIL_CREATED || s.phase == S.RECIPIENTS_SET) && |s.to| < S.MAX_RECIPIENTS
           && S.Usable(S.MailAddress(line)) then [HANDLE_RCPT] else []
      case RSET => if S.Resettable(s.phase) then [HANDLE_RSET] else []
      case DATA => if s.phase == S.RECIPIENTS_SET && e.io == Done then [HANDLE_DATA] else []
      case NOOP => [HANDLE_NOOP]
      case QUIT => if e.io == WouldBlock then [] else [HANDLE_QUIT]
      case OTHER => []
  }

  lemma ServerOne(st: TableState, ev: ServerEvent)
    ensures ServerRun(st, [ev]) == ServerNext(st, ev)
  {
    assert ServerRun(ServerNext(st, ev), []) == ServerNext(st, ev);
  }

  lemma TextSimulates(s: S.Session, line: string, e: S.LineInput)
    requires s.textMode && s.phase == S.WRITING_DATA
    ensures ServerRun(ServerState(s.phase), LineEvents(s, line, e)) == ServerState(S.HandleText(s, line, e).phase)
  {
    if line == "." {
      ServerOne(6, MESSAGE_SAVED);
      assert [CLRF_DOT_CLRF, MESSAGE_SAVED][1..] == [MESSAGE_SAVED];
    } else {
      ServerOne(5, TEXT);
    }
  }

  /** Whether or not an event happens, the run of the table follows. */
  lemma MaybeOne(st: TableState, ev: ServerEvent, happens: bool, st': TableState)
    requires st' == if happens then ServerNext(st, ev) else st
    ensures ServerRun(st, if happens then [ev] else []) == st'
  {
    ServerOne(st, ev);
  }

  lemma CommandSimulates(s: S.Session, line: string, e: S.LineInput)
    requires !s.textMode && S.INIT <= s.phase <= S.RECIPIENTS_SET
    ensures ServerRun(ServerState(s.phase), LineEvents(s, line, e)) == ServerState(S.HandleCommand(s, line, e).phase)
  {
    var (st, st') := (ServerState(s.phase), ServerState(S.HandleCommand(s, line, e).phase));
    var usable := S.Usable(S.MailAddress(line));
    match S.VerbOf(line)
    case HELO => MaybeOne(st, HANDLE_HELO, s.phase == S.INIT && e.io != WouldBlock && !S.Faults(s, line), st');
    case EHLO => MaybeOne(st, HANDLE_HELO, s.phase == S.INIT && e.io != WouldBlock, st');
    case MAIL => MaybeOne(st, HANDLE_MAIL, s.phase == S.WAIT && usable, st');
    case RCPT =>
      var taken := (s.phase == S.MAIL_CREATED || s.phase == S.RECIPIENTS_SET) && |s.to| < S.MAX_RECIPIENTS && usable;
      MaybeOne(st, HANDLE_RCPT, taken, st');
    case RSET => MaybeOne(st, HANDLE_RSET, S.Resettable(s.phase), st');
    case DATA => MaybeOne(st, HANDLE_DATA, s.phase == S.RECIPIENTS_SET && e.io == Done, st');
    case NOOP => MaybeOne(st, HANDLE_NOOP, true, st');
    case QUIT => MaybeOne(st, HANDLE_QUIT, e.io != WouldBlock, st');
    case OTHER =>
  }

  /** Handling a line is a path of at most two transitions of the table. */
  lemma ServerSimulates(s: S.Session, line: string, e: S.LineInput)
    requires S.Sound(s) && S.INIT <= s.phase <= S.WRITING_DATA
    ensures var evs := LineEvents(s, line, e);
            |evs| <= 2 && ServerRun(ServerState(s.phase), evs) == ServerState(S.Line(s, line, e).phase)
  {
    if s.textMode {
      TextSimulates(s, line, e);
    } else {
      CommandSimulates(s, line, e);
    }
  }

  /** A sent greeting is the table's connection_established edge. */
  lemma GreetingSimulates(s: S.Session, io: IO)
    requires s.phase == S.SEND_GREETING
    ensures io == Done ==>
              ServerNext(ServerState(s.phase), CONNECTION_ESTABLISHED) == ServerState(S.Greet(s, io).phase)
    ensures io == WouldBlock ==> S.Greet(s, io) == s
  {
  }

  /** A lost connection is the table's connection_failed edge, except before the greeting was sent: there the code
      closes the session and the table has no edge. */
  lemma LossSimulates(s: S.Session)
    requires S.Sound(s) && s.phase != S.CLOSED
    ensures ServerNext(ServerState(s.phase), CONNECTION_FAILED) == ServerState(S.CLOSED) <==> s.phase != S.SEND_GREETING
  {
  }

  // -------------------------------------------------------------- client table

  datatype ClientEvent =
    | CONNECTION | SMTP_GREETING | SEND_EHLO | EHLO_RESPONSE | SEND_MAIL_FROM | MAIL_FROM_RESPONSE | SEND_RCPT_TO
    | RCPT_TO_RESPONSE | SEND_DATA | DATA_RESPONSE | SEND_LETTER | LETTER_RESPONSE | SEND_QUIT | QUIT_RESPONSE
    | DISPOSING_SOCKET | NEXT_LETTER | NEW_LETTER | SEND_RSET | RSET_RESPONSE | ERROR

  const CLIENT_INVALID: TableState := 21

  /** Table states in the order of the enumeration: 0 INIT, 1 SMTP_ERROR, 2 PREPARE, 3 CONNECT, 4 RECEIVE_SMTP_GREETING
      ... 16 RECEIVE_QUIT_RESPONSE, 17 DISPOSING_SOCKET, 18 NEXT_LETTER, 19 SEND_RSET, 20 RECEIVE_RSET_RESPONSE. */
  function ClientNext(st: TableState, ev: ClientEvent): TableState {
    if !(0 <= st <= 20) then CLIENT_INVALID
    else if ev == ERROR then 1
    else if st == 2 && ev == CONNECTION then 3
    else if st == 3 && ev == SMTP_GREETING then 4
    else if st == 4 && ev == SEND_EHLO then 5
    else if st == 5 && ev == EHLO_RESPONSE then 6
    else if st == 6 && ev == SEND_MAIL_FROM then 7
    else if st == 7 && ev == MAIL_FROM_RESPONSE then 8
    else if st == 8 && ev == SEND_RCPT_TO then 9
    else if st == 9 && ev == RCPT_TO_RESPONSE then 10
    else if st == 10 && ev == SEND_DATA then 11
    else if st == 11 && ev == DATA_RESPONSE then 12
    else if st == 12 && ev == SEND_LETTER then 13
    else if st == 13 && ev == LETTER_RESPONSE then 14
    else if st == 14 && ev == NEXT_LETTER then 18
    else if st == 14 && ev == SEND_QUIT then 15
    else if st == 15 && ev == SEND_QUIT then 16
    else if st == 16 && ev == QUIT_RESPONSE then 17
    else if st == 18 && ev == NEW_LETTER then 6
    else CLIENT_INVALID
  }

  function ClientRun(st: TableState, evs: seq<ClientEvent>): TableState
    decreases |evs|
  {
    if evs == [] then st else ClientRun(ClientNext(st, evs[0]), evs[1..])
  }

  /** The control state's place in the table. */
  function ClientState(s: C.State): TableState {
    if s == C.SMTP_ERROR then 1
    else if s == C.PREPARE_SOCKET_CONNECTION then 2
    else if C.RECEIVE_SMTP_GREETING <= s <= C.DISPOSING_SOCKET then s + 3
    else if s == C.SEND_RSET then 19
    else if s == C.RECEIVE_RSET_RESPONSE then 20
    else CLIENT_INVALID
  }

  /** Before disposal and outside error recovery. */
  predicate Normal(s: C.State) { C.PREPARE_SOCKET_CONNECTION <= s <= C.RECEIVE_QUIT_RESPONSE }

  /** The table's way from one control state to the next. */
  function Path(from: C.State, to: C.State): seq<ClientEvent> {
    if to == from then []
    else if to == C.SMTP_ERROR then [ERROR]
    else if from == C.PREPARE_SOCKET_CONNECTION then [CONNECTION, SMTP_GREETING]
    else if from == C.RECEIVE_LETTER_RESPONSE && to == C.SEND_MAIL_FROM then [NEXT_LETTER, NEW_LETTER, SEND_MAIL_FROM]
    else if from == C.RECEIVE_SMTP_GREETING then [SEND_EHLO]
    else if from == C.SEND_EHLO then [EHLO_RESPONSE]
    else if from == C.RECEIVE_EHLO_RESPONSE then [SEND_MAIL_FROM]
    else if from == C.SEND_MAIL_FROM then [MAIL_FROM_RESPONSE]
    else if from == C.RECEIVE_MAIL_FROM_RESPONSE then [SEND_RCPT_TO]
    else if from == C.SEND_RCPT_TO then [RCPT_TO_RESPONSE]
    else if from == C.RECEIVE_RCPT_TO_RESPONSE then [SEND_DATA]
    else if from == C.SEND_DATA then [DATA_RESPONSE]
    else if from == C.RECEIVE_DATA_RESPONSE then [SEND_LETTER]
    else if from == C.SEND_LETTER then [LETTER_RESPONSE]
    else if from == C.RECEIVE_LETTER_RESPONSE then [SEND_QUIT]
    else if from == C.SEND_QUIT then [SEND_QUIT]
    else [QUIT_RESPONSE]
  }

  lemma ClientOne(st: TableState, ev: ClientEvent)
    ensures ClientRun(st, [ev]) == ClientNext(st, ev)
  {
    assert ClientRun(ClientNext(st, ev), []) == ClientNext(st, ev);
  }

  /** The control states a step of a normal state can lead to, other than being hung up on. */
  predicate Successor(from: C.State, to: C.State) {
    || to == from || to == C.SMTP_ERROR
    || (C.PREPARE_SOCKET_CONNECTION <= from <= C.RECEIVE_QUIT_RESPONSE && to == from + 1)
    || (from == C.RECEIVE_LETTER_RESPONSE && to == C.SEND_MAIL_FROM)
  }

  lemma PathLeads(from: C.State, to: C.State)
    requires Normal(from) && Successor(from, to)
    ensures |Path(from, to)| <= 3 && ClientRun(ClientState(from), Path(from, to)) == ClientState(to)
  {
    var p, st := Path(from, to), ClientState(from);
    if |p| == 1 {
      ClientOne(st, p[0]);
    } else if |p| == 2 {
      assert p[1..] == [SMTP_GREETING];
      ClientOne(3, SMTP_GREETING);
    } else if |p| == 3 {
      assert p[1..] == [NEW_LETTER, SEND_MAIL_FROM] && p[1..][1..] == [SEND_MAIL_FROM];
      ClientOne(6, SEND_MAIL_FROM);
    }
  }

  predicate HungUp(c: C.Conn, i: C.Input) {
    C.Receives(c.cur) && i.io == Done && C.HangsUp(c.cur, i.reply)
  }

  lemma StepSuccessor(c: C.Conn, i: C.Input)
    requires Normal(c.cur) && !c.crashed && (c.cur == C.PREPARE_SOCKET_CONNECTION || R.InTable(c.cur, c.prev))
    ensures !HungUp(c, i) ==> Successor(c.cur, C.Step(c, i).0.cur)
    ensures HungUp(c, i) ==> C.Step(c, i).0.cur == C.DISPOSING_SOCKET
  {
    if C.Receives(c.cur) {
      if i.io == Done {
        var (h, v) := (C.HangsUp(c.cur, i.reply), C.Verdict(c.cur, i.reply, c.domain));
        assert C.ReceiveStep(c, i) == C.ReplyStep(c, i.reply, h, v);
      }
    } else if c.cur != C.SEND_MAIL_FROM && c.cur != C.SEND_LETTER && C.Sends(c.cur) {
      assert C.Follows(c.cur, c.prev) ==> C.Step(c, i) == C.CommandStep(c, i, C.CommandOf(c));
    }
  }

  /** From a greeting or EHLO state no short path of the table leads to disposal. */
  lemma NoWayOut(from: C.State, evs: seq<ClientEvent>)
    requires from == C.RECEIVE_SMTP_GREETING || from == C.RECEIVE_EHLO_RESPONSE
    requires |evs| <= 3
    ensures ClientRun(ClientState(from), evs) != ClientState(C.DISPOSING_SOCKET)
  {
    var st := ClientState(from);
    if |evs| == 1 {
      ClientOne(st, evs[0]);
    } else if |evs| == 2 {
      var s1 := ClientNext(st, evs[0]);
      assert evs[1..] == [evs[1]];
      ClientOne(s1, evs[1]);
    } else if |evs| == 3 {
      var s1 := ClientNext(st, evs[0]);
      var s2 := ClientNext(s1, evs[1]);
      assert evs[1..][0] == evs[1] && evs[1..][1..] == [evs[2]];
      ClientOne(s2, evs[2]);
    }
  }

  /** A step from a normal state is a path of at most three transitions of the table, errors being its error edge,
      exactly when the server does not hang up with 421. */
  lemma ClientSimulates(c: C.Conn, i: C.Input)
    requires Normal(c.cur) && !c.crashed && (c.cur == C.PREPARE_SOCKET_CONNECTION || R.InTable(c.cur, c.prev))
    ensures var d := C.Step(c, i).0;
            (exists evs :: |evs| <= 3 && ClientRun(ClientState(c.cur), evs) == ClientState(d.cur)) <==> !HungUp(c, i)
    ensures var d := C.Step(c, i).0;
            d.cur == C.SMTP_ERROR ==> ClientNext(ClientState(c.cur), ERROR) == ClientState(d.cur)
  {
    var d := C.Step(c, i).0;
    StepSuccessor(c, i);
    if HungUp(c, i) {
      forall evs: seq<ClientEvent> | |evs| <= 3 ensures ClientRun(ClientState(c.cur), evs) != ClientState(d.cur) {
        NoWayOut(c.cur, evs);
      }
    } else {
      PathLeads(c.cur, d.cur);
    }
  }
}
