/** The offline signer: requests interleave and crash between reserving a row, auditing, signing, auditing again and
    storing the response. Request hashes and signatures are ideal: each determines what was hashed or signed. */
module SignerRuntime {
  import opened Outcomes

  datatype Transaction = Transaction(to: string, data: string, value: nat, nonce: nat, gas: nat, maxFeePerGas: nat,
    maxPriorityFeePerGas: nat)

  /** A signing request: its authorization, of which the key and intent matter here, and its transaction. */
  datatype Request = Request(key: string, intentId: string, approval: string, transaction: Transaction)

  /** A signature is made for one transaction and answers one intent. */
  datatype Signature = Signature(intentId: string, signed: Transaction)

  datatype Caps = Caps(maxGas: nat, maxFeePerGas: nat, maxTotalFee: nat)

  const MIN_GAS: nat := 21000

  predicate WithinCaps(caps: Caps, t: Transaction) {
    && MIN_GAS <= t.gas <= caps.maxGas
    && 0 < t.maxFeePerGas <= caps.maxFeePerGas
    && t.maxPriorityFeePerGas <= t.maxFeePerGas
    && t.gas * t.maxFeePerGas <= caps.maxTotalFee
  }

  /** A row of `signer_requests`, under its idempotency key. */
  datatype Row = Row(intentId: string, nonce: nat, request: Request, response: Option<Signature>)

  type Rows = map<string, Row>

  /** `verifyOfflineSignature`: the signature is of the request's own transaction and intent. */
  predicate Verifies(r: Request, s: Signature) {
    s.intentId == r.intentId && s.signed == r.transaction
  }

  datatype AuditRow = SigningRequested(intentId: string, nonce: nat) | SigningCompleted(signature: Signature)

  // ---------------------------------------------------------------------------
  // The statements
  // ---------------------------------------------------------------------------

  predicate Taken(rows: Rows, r: Request) {
    || r.key in rows
    || exists k :: k in rows && (rows[k].intentId == r.intentId || rows[k].nonce == r.transaction.nonce)
  }

  /** INSERT OR IGNORE: the primary key and both unique columns must be free. */
  function Reserve(rows: Rows, r: Request): (Rows, bool) {
    if Taken(rows, r) then (rows, false)
    else (rows[r.key := Row(r.intentId, r.transaction.nonce, r, None)], true)
  }

  /** UPDATE of the response where it is still null. */
  function Complete(rows: Rows, key: string, s: Signature): (Rows, bool) {
    if key in rows && rows[key].response.None? then (rows[key := rows[key].(response := Some(s))], true)
      else (rows, false)
  }

  datatype Found = Absent | Unresolved | Stored(signature: Signature)

  /** What the lookup decides: go on, refuse, or answer from the stored response after verifying it. */
  function Find(rows: Rows, r: Request): Found {
    if r.key !in rows then Absent
    else
      match rows[r.key].response
      case None => Unresolved
      case Some(s) => if rows[r.key].request == r && Verifies(r, s) then Stored(s) else Unresolved
  }

  function SignTransaction(r: Request): Signature {
    Signature(r.intentId, r.transaction)
  }

  // ---------------------------------------------------------------------------
  // Interleaved requests
  // ---------------------------------------------------------------------------

  datatype Phase =
    | Admitted(r: Request)
    | Unreserved(r: Request)
    | Reserved(r: Request)
    | Requested(r: Request)
    | Signed(r: Request, s: Signature)
    | Audited(r: Request, s: Signature)

  datatype Answer = Answer(r: Request, s: Signature)

  /** Durable rows and audit, the requests in flight, every signature ever made with the request it was made for,
      and every answer ever given. */
  datatype World = World(rows: Rows, audit: seq<AuditRow>, flights: map<nat, Phase>, signatures: seq<Answer>,
    answers: seq<Answer>)

  const INIT := World(map[], [], map[], [], [])

  /** The next step of one flight, or its crash. The outcome is that of the step's own write: done, lost, or taking
      effect although the step throws. */
  datatype Label = Submit(f: nat, r: Request, authorized: bool) | Step(f: nat, write: WriteOutcome) | Crash(f: nat)

  function Gone(w: World, f: nat): World {
    w.(flights := w.flights - {f})
  }

  function Moved(w: World, f: nat, p: Phase): World {
    w.(flights := w.flights[f := p])
  }

  /** A flight goes on after a write that was done, and ends when the write threw, whether or not it took effect. */
  function After(w: World, f: nat, p: Phase, write: WriteOutcome): World {
    if write.Done? then Moved(w, f, p) else Gone(w, f)
  }

  function Logging(w: World, row: AuditRow, write: WriteOutcome): World {
    if write.Lost? then w else w.(audit := w.audit + [row])
  }

  function Advance(w: World, f: nat, p: Phase, write: WriteOutcome): World {
    match p
    case Admitted(r) =>
      (match Find(w.rows, r)
       case Absent => Moved(w, f, Unreserved(r))
       case Unresolved => Gone(w, f)
       case Stored(s) => Gone(w, f).(answers := w.answers + [Answer(r, s)]))
    case Unreserved(r) =>
      var (rows, reserved) := Reserve(w.rows, r);
      if !reserved || write.Lost? then Gone(w, f) else After(w, f, Reserved(r), write).(rows := rows)
    case Reserved(r) =>
      After(Logging(w, SigningRequested(r.intentId, r.transaction.nonce), write), f, Requested(r), write)
    case Requested(r) =>
      var s := SignTransaction(r);
      if write.Lost? then Gone(w, f)
      else After(w, f, Signed(r, s), write).(signatures := w.signatures + [Answer(r, s)])
    case Signed(r, s) => After(Logging(w, SigningCompleted(s), write), f, Audited(r, s), write)
    case Audited(r, s) =>
      var (rows, stored) := Complete(w.rows, r.key, s);
      if !stored || write.Lost? then Gone(w, f)
      else if write.Half? then Gone(w, f).(rows := rows)
      else Gone(w, f).(rows := rows, answers := w.answers + [Answer(r, s)])
  }

  function Next(caps: Caps, w: World, l: Label): World {
    match l
    case Submit(f, r, authorized) =>
      if f !in w.flights && authorized && WithinCaps(caps, r.transaction) then Moved(w, f, Admitted(r)) else w
    case Step(f, write) => if f in w.flights then Advance(w, f, w.flights[f], write) else w
    case Crash(f) => Gone(w, f)
  }

  function Run(caps: Caps, w: World, run: seq<Label>): World
    decreases |run|
  {
    if run == [] then w else Run(caps, Next(caps, w, run[0]), run[1..])
  }

  // ---------------------------------------------------------------------------
  // What every step keeps
  // ---------------------------------------------------------------------------

  predicate HoldsRow(p: Phase) {
    p.Reserved? || p.Requested? || p.Signed? || p.Audited?
  }

  predicate HasSigned(p: Phase) {
    p.Signed? || p.Audited?
  }

  ghost predicate RowsUnique(rows: Rows) {
    && (forall k :: k in rows ==>
          && rows[k].request.key == k && rows[k].intentId == rows[k].request.intentId
          && rows[k].nonce == rows[k].request.transaction.nonce)
    && forall j, k ::
         j in rows && k in rows && (rows[j].intentId == rows[k].intentId || rows[j].nonce == rows[k].nonce) ==>
           j == k
  }

  predicate SignedKey(w: World, key: string) {
    exists i :: 0 <= i < |w.signatures| && w.signatures[i].r.key == key
  }

  /** A flight past its reservation owns an unanswered row; it has signed once its phase says so, and not before. */
  ghost predicate FlightSound(caps: Caps, w: World, p: Phase) {
    && WithinCaps(caps, p.r.transaction)
    && (HoldsRow(p) ==> p.r.key in w.rows && w.rows[p.r.key].request == p.r && w.rows[p.r.key].response.None?)
    && (HoldsRow(p) ==> (SignedKey(w, p.r.key) <==> HasSigned(p)))
    && (p.Requested? || HasSigned(p) ==> SigningRequested(p.r.intentId, p.r.transaction.nonce) in w.audit)
    && (HasSigned(p) ==> Answer(p.r, p.s) in w.signatures)
    && (p.Audited? ==> SigningCompleted(p.s) in w.audit)
  }

  ghost predicate SignatureSound(caps: Caps, w: World, a: Answer) {
    && a.s == SignTransaction(a.r) && WithinCaps(caps, a.r.transaction)
    && a.r.key in w.rows && w.rows[a.r.key].request == a.r
    && SigningRequested(a.r.intentId, a.r.transaction.nonce) in w.audit
  }

  ghost predicate ResponseSound(w: World, key: string)
    requires key in w.rows
  {
    w.rows[key].response.Some? ==>
      Answer(w.rows[key].request, w.rows[key].response.value) in w.signatures
        && SigningCompleted(w.rows[key].response.value) in w.audit
  }

  ghost predicate AnswerSound(w: World, a: Answer) {
    a.r.key in w.rows && w.rows[a.r.key].request == a.r && w.rows[a.r.key].response == Some(a.s)
  }

  ghost predicate Sound(caps: Caps, w: World) {
    && RowsUnique(w.rows)
    && (forall f :: f in w.flights ==> FlightSound(caps, w, w.flights[f]))
    && (forall f, g ::
         f in w.flights && g in w.flights && f != g && HoldsRow(w.flights[f]) && HoldsRow(w.flights[g]) ==>
          w.flights[f].r.key != w.flights[g].r.key)
    && (forall i :: 0 <= i < |w.signatures| ==> SignatureSound(caps, w, w.signatures[i]))
    && (forall i, j :: 0 <= i < j < |w.signatures| ==> w.signatures[i].r.key != w.signatures[j].r.key)
    && (forall k :: k in w.rows ==> ResponseSound(w, k))
    && forall i :: 0 <= i < |w.answers| ==> AnswerSound(w, w.answers[i])
  }

  /** Rows are never removed or rebound, and a response once stored stays. */
  ghost predicate RowsOnlyGrow(before: Rows, after: Rows) {
    forall k :: k in before ==>
      (k in after && after[k].request == before[k].request
        && (before[k].response.Some? ==> after[k].response == before[k].response))
  }

  lemma GoneKeeps(caps: Caps, w: World, f: nat)
    requires Sound(caps, w)
    ensures Sound(caps, Gone(w, f))
  {
    var w' := Gone(w, f);
    forall g | g in w'.flights ensures FlightSound(caps, w', w'.flights[g]) {
      assert FlightSound(caps, w, w.flights[g]);
    }
    forall i | 0 <= i < |w.signatures| ensures SignatureSound(caps, w', w'.signatures[i]) {
      assert SignatureSound(caps, w, w.signatures[i]);
    }
    forall k | k in w.rows ensures ResponseSound(w', k) {
      assert ResponseSound(w, k);
    }
    forall i | 0 <= i < |w.answers| ensures AnswerSound(w', w'.answers[i]) {
      assert AnswerSound(w, w.answers[i]);
    }
  }

  /** A flight without a row comes or goes. */
  lemma MovedKeeps(caps: Caps, w: World, f: nat, p: Phase)
    requires Sound(caps, w) && !HoldsRow(p) && WithinCaps(caps, p.r.transaction)
    ensures Sound(caps, Moved(w, f, p))
  {
    hide WithinCaps, RowsUnique;
    var w' := Moved(w, f, p);
    forall g | g in w'.flights ensures FlightSound(caps, w', w'.flights[g]) {
      assert g != f ==> FlightSound(caps, w, w.flights[g]);
    }
    forall i | 0 <= i < |w.signatures| ensures SignatureSound(caps, w', w'.signatures[i]) {
      assert SignatureSound(caps, w, w.signatures[i]);
    }
    forall k | k in w.rows ensures ResponseSound(w', k) {
      assert ResponseSound(w, k);
    }
    forall i | 0 <= i < |w.answers| ensures AnswerSound(w', w'.answers[i]) {
      assert AnswerSound(w, w.answers[i]);
    }
  }

  lemma AnswerKeeps(caps: Caps, w: World, a: Answer)
    requires Sound(caps, w) && AnswerSound(w, a)
    ensures Sound(caps, w.(answers := w.answers + [a]))
  {
    hide WithinCaps, RowsUnique;
    var w' := w.(answers := w.answers + [a]);
    forall g | g in w'.flights ensures FlightSound(caps, w', w'.flights[g]) {
      assert FlightSound(caps, w, w.flights[g]);
    }
    forall i | 0 <= i < |w.signatures| ensures SignatureSound(caps, w', w'.signatures[i]) {
      assert SignatureSound(caps, w, w.signatures[i]);
    }
    forall k | k in w.rows ensures ResponseSound(w', k) {
      assert ResponseSound(w, k);
    }
    forall i | 0 <= i < |w'.answers| ensures AnswerSound(w', w'.answers[i]) {
      assert i < |w.answers| ==> AnswerSound(w, w.answers[i]);
    }
  }

  lemma ReservedRowsUnique(rows: Rows, r: Request)
    requires RowsUnique(rows) && !Taken(rows, r)
    ensures RowsUnique(Reserve(rows, r).0)
  {
  }

  lemma ReserveKeeps(caps: Caps, w: World, f: nat)
    requires Sound(caps, w) && f in w.flights && w.flights[f].Unreserved? && !Taken(w.rows, w.flights[f].r)
    ensures Sound(caps, Advance(w, f, w.flights[f], Done))
  {
    hide WithinCaps, RowsUnique;
    var r := w.flights[f].r;
    var w' := Advance(w, f, w.flights[f], Done);
    ReservedRowsUnique(w.rows, r);
    assert FlightSound(caps, w, w.flights[f]);
    forall i | 0 <= i < |w.signatures|
      ensures SignatureSound(caps, w', w'.signatures[i]) && w.signatures[i].r.key != r.key {
      assert SignatureSound(caps, w, w.signatures[i]);
    }
    forall g | g in w'.flights ensures FlightSound(caps, w', w'.flights[g]) {
      if g != f {
        assert FlightSound(caps, w, w.flights[g]);
        assert SignedKey(w', w.flights[g].r.key) <==> SignedKey(w, w.flights[g].r.key);
      }
    }
    forall g | g in w.flights && HoldsRow(w.flights[g]) ensures w.flights[g].r.key != r.key {
      assert FlightSound(caps, w, w.flights[g]);
    }
    forall k | k in w'.rows ensures ResponseSound(w', k) {
      assert k != r.key ==> ResponseSound(w, k);
    }
    forall i | 0 <= i < |w.answers| ensures AnswerSound(w', w'.answers[i]) {
      assert AnswerSound(w, w.answers[i]);
    }
  }

  /** An audit row before or after signing. */
  lemma AuditKeeps(caps: Caps, w: World, f: nat)
    requires Sound(caps, w) && f in w.flights && (w.flights[f].Reserved? || w.flights[f].Signed?)
    ensures Sound(caps, Advance(w, f, w.flights[f], Done))
  {
    hide WithinCaps, RowsUnique;
    var w' := Advance(w, f, w.flights[f], Done);
    assert FlightSound(caps, w, w.flights[f]);
    forall g | g in w'.flights ensures FlightSound(caps, w', w'.flights[g]) {
      assert FlightSound(caps, w, w.flights[g]);
      assert SignedKey(w', w.flights[g].r.key) <==> SignedKey(w, w.flights[g].r.key);
    }
    forall i | 0 <= i < |w.signatures| ensures SignatureSound(caps, w', w'.signatures[i]) {
      assert SignatureSound(caps, w, w.signatures[i]);
    }
    forall k | k in w.rows ensures ResponseSound(w', k) {
      assert ResponseSound(w, k);
    }
    forall i | 0 <= i < |w.answers| ensures AnswerSound(w', w'.answers[i]) {
      assert AnswerSound(w, w.answers[i]);
    }
  }

  lemma SignKeeps(caps: Caps, w: World, f: nat)
    requires Sound(caps, w) && f in w.flights && w.flights[f].Requested?
    ensures Sound(caps, Advance(w, f, w.flights[f], Done))
  {
    hide WithinCaps, RowsUnique;
    var r := w.flights[f].r;
    var a := Answer(r, SignTransaction(r));
    var w' := Advance(w, f, w.flights[f], Done);
    assert FlightSound(caps, w, w.flights[f]) && !SignedKey(w, r.key);
    assert w'.signatures == w.signatures + [a];
    forall g | g in w'.flights ensures FlightSound(caps, w', w'.flights[g]) {
      assert FlightSound(caps, w, w.flights[g]);
      SignedKeyGrows(w, a, w.flights[g].r.key);
      assert SignedKey(w', w.flights[g].r.key) == SignedKey(w.(signatures := w.signatures + [a]), w.flights[g].r.key);
    }
    forall i | 0 <= i < |w'.signatures| ensures SignatureSound(caps, w', w'.signatures[i]) {
      assert i < |w.signatures| ==> SignatureSound(caps, w, w.signatures[i]) && w'.signatures[i] == w.signatures[i];
    }
    forall i, j | 0 <= i < j < |w'.signatures| ensures w'.signatures[i].r.key != w'.signatures[j].r.key {
      assert w'.signatures[i] == w.signatures[i];
    }
    forall k | k in w.rows ensures ResponseSound(w', k) {
      assert ResponseSound(w, k);
    }
    forall i | 0 <= i < |w.answers| ensures AnswerSound(w', w'.answers[i]) {
      assert AnswerSound(w, w.answers[i]);
    }
  }

  lemma SignedKeyGrows(w: World, a: Answer, key: string)
    ensures SignedKey(w.(signatures := w.signatures + [a]), key) <==> SignedKey(w, key) || key == a.r.key
  {
    var w' := w.(signatures := w.signatures + [a]);
    assert w'.signatures[|w.signatures|] == a;
    if SignedKey(w, key) {
      var i :| 0 <= i < |w.signatures| && w.signatures[i].r.key == key;
      assert w'.signatures[i] == w.signatures[i];
    }
  }

  lemma CompletedRowsUnique(rows: Rows, key: string, s: Signature)
    requires RowsUnique(rows)
    ensures RowsUnique(Complete(rows, key, s).0)
  {
  }

  /** The response is stored, whether or not its caller is told. */
  lemma CompleteKeeps(caps: Caps, w: World, f: nat, write: WriteOutcome)
    requires Sound(caps, w) && f in w.flights && w.flights[f].Audited? && !write.Lost?
    ensures Sound(caps, Advance(w, f, w.flights[f], write))
  {
    hide WithinCaps, SignTransaction, RowsUnique;
    var r, s := w.flights[f].r, w.flights[f].s;
    var w' := Advance(w, f, w.flights[f], write);
    assert FlightSound(caps, w, w.flights[f]);
    CompletedRowsUnique(w.rows, r.key, s);
    forall g | g in w'.flights ensures FlightSound(caps, w', w'.flights[g]) {
      assert FlightSound(caps, w, w.flights[g]);
      assert SignedKey(w', w.flights[g].r.key) <==> SignedKey(w, w.flights[g].r.key);
    }
    forall i | 0 <= i < |w.signatures| ensures SignatureSound(caps, w', w'.signatures[i]) {
      assert SignatureSound(caps, w, w.signatures[i]);
    }
    forall k | k in w'.rows ensures ResponseSound(w', k) {
      assert ResponseSound(w, k);
    }
    forall i | 0 <= i < |w'.answers| ensures AnswerSound(w', w'.answers[i]) {
      assert i < |w.answers| ==> AnswerSound(w, w.answers[i]);
    }
  }

  /** A write that took effect before its step threw leaves what the step and then a crash would. */
  lemma HalfIsCrash(w: World, f: nat)
    requires f in w.flights && !w.flights[f].Admitted? && !w.flights[f].Audited?
    ensures Advance(w, f, w.flights[f], Half) == Gone(Advance(w, f, w.flights[f], Done), f)
  {
    hide Taken;
    var done := Advance(w, f, w.flights[f], Done);
    if f in done.flights {
      LeavesAgain(w.flights, f, done.flights[f]);
    }
  }

  lemma LeavesAgain(flights: map<nat, Phase>, f: nat, p: Phase)
    ensures flights[f := p] - {f} == flights - {f}
  {
  }

  lemma NextKeeps(caps: Caps, w: World, l: Label)
    requires Sound(caps, w)
    ensures Sound(caps, Next(caps, w, l)) && RowsOnlyGrow(w.rows, Next(caps, w, l).rows)
    ensures w.answers <= Next(caps, w, l).answers && w.signatures <= Next(caps, w, l).signatures
  {
    hide WithinCaps, Sound;
    match l {
      case Submit(f, r, authorized) =>
        if f !in w.flights && authorized && WithinCaps(caps, r.transaction) {
          MovedKeeps(caps, w, f, Admitted(r));
        }
      case Crash(f) => GoneKeeps(caps, w, f);
      case Step(f, write) =>
        GoneKeeps(caps, w, f);
        if f in w.flights {
          StepKeeps(caps, w, f, write);
        }
    }
  }

  lemma StepKeeps(caps: Caps, w: World, f: nat, write: WriteOutcome)
    requires Sound(caps, w) && f in w.flights && Sound(caps, Gone(w, f))
    ensures Sound(caps, Advance(w, f, w.flights[f], write))
  {
    hide WithinCaps, RowsUnique;
    assert FlightSound(caps, w, w.flights[f]);
    if w.flights[f].Admitted? {
      AdmittedKeeps(caps, w, f, write);
    } else if write.Lost? {
    } else if w.flights[f].Audited? {
      CompleteKeeps(caps, w, f, write);
    } else {
      DoneKeeps(caps, w, f);
      if write.Half? {
        HalfIsCrash(w, f);
        GoneKeeps(caps, Advance(w, f, w.flights[f], Done), f);
      }
    }
  }

  lemma AdmittedKeeps(caps: Caps, w: World, f: nat, write: WriteOutcome)
    requires Sound(caps, w) && f in w.flights && w.flights[f].Admitted? && Sound(caps, Gone(w, f))
    ensures Sound(caps, Advance(w, f, w.flights[f], write))
  {
    hide WithinCaps, RowsUnique;
    var r := w.flights[f].r;
    assert FlightSound(caps, w, w.flights[f]);
    match Find(w.rows, r) {
      case Absent => MovedKeeps(caps, w, f, Unreserved(r));
      case Unresolved =>
      case Stored(s) => AnswerKeeps(caps, Gone(w, f), Answer(r, s));
    }
  }

  lemma DoneKeeps(caps: Caps, w: World, f: nat)
    requires Sound(caps, w) && f in w.flights && !w.flights[f].Admitted? && !w.flights[f].Audited?
      && Sound(caps, Gone(w, f))
    ensures Sound(caps, Advance(w, f, w.flights[f], Done))
  {
    hide Sound;
    match w.flights[f] {
      case Unreserved(r) =>
        if !Taken(w.rows, r) {
          ReserveKeeps(caps, w, f);
        }
      case Reserved(_) => AuditKeeps(caps, w, f);
      case Requested(_) => SignKeeps(caps, w, f);
      case Signed(_, _) => AuditKeeps(caps, w, f);
    }
  }

  // ---------------------------------------------------------------------------
  // Over every run
  // ---------------------------------------------------------------------------

  lemma {:induction false} RunKeeps(caps: Caps, w: World, run: seq<Label>)
    requires Sound(caps, w)
    ensures var w' := Run(caps, w, run);
      Sound(caps, w') && RowsOnlyGrow(w.rows, w'.rows) && w.answers <= w'.answers && w.signatures <= w'.signatures
    decreases |run|
  {
    hide Sound, Next;
    if run != [] {
      NextKeeps(caps, w, run[0]);
      RunKeeps(caps, Next(caps, w, run[0]), run[1..]);
    }
  }

  lemma {:induction false} RunAppend(caps: Caps, w: World, run: seq<Label>, l: Label)
    ensures Run(caps, w, run + [l]) == Next(caps, Run(caps, w, run), l)
    decreases |run|
  {
    hide Next;
    if run == [] {
      assert [] + [l] == [l] && [l][1..] == [];
      assert Run(caps, w, [l]) == Run(caps, Next(caps, w, l), []);
    } else {
      assert (run + [l])[1..] == run[1..] + [l];
      RunAppend(caps, Next(caps, w, run[0]), run[1..], l);
    }
  }

  lemma InitSound(caps: Caps)
    ensures Sound(caps, INIT)
  {
  }

  /** Over every run no idempotency key, intent or nonce is signed twice, and every signature is of its request's own
      transaction, within the gas and total-fee caps, after its request was audited. */
  lemma NothingIsSignedTwice(caps: Caps, run: seq<Label>)
    ensures var signatures := Run(caps, INIT, run).signatures;
      forall i, j :: 0 <= i < j < |signatures| ==>
        && signatures[i].r.key != signatures[j].r.key
        && signatures[i].r.intentId != signatures[j].r.intentId
        && signatures[i].r.transaction.nonce != signatures[j].r.transaction.nonce
    ensures var w := Run(caps, INIT, run);
      forall i :: 0 <= i < |w.signatures| ==>
        var r, t := w.signatures[i].r, w.signatures[i].s.signed;
        && t == r.transaction && w.signatures[i].s.intentId == r.intentId
        && 21000 <= t.gas <= caps.maxGas && 0 < t.maxFeePerGas <= caps.maxFeePerGas
        && t.maxPriorityFeePerGas <= t.maxFeePerGas && t.gas * t.maxFeePerGas <= caps.maxTotalFee
        && SigningRequested(r.intentId, t.nonce) in w.audit
  {
    InitSound(caps);
    RunKeeps(caps, INIT, run);
    var w := Run(caps, INIT, run);
    forall i | 0 <= i < |w.signatures| ensures SignatureSound(caps, w, w.signatures[i]) {
    }
  }

  /** Answers are stored signatures: every answer was signed for that very request and audited as completed before it
      was given, and two answers for one key are the same, however far apart in the run. */
  lemma ReplaysReturnTheStoredSignature(caps: Caps, run: seq<Label>)
    ensures var w := Run(caps, INIT, run);
      && (forall i :: 0 <= i < |w.answers| ==>
            && w.answers[i] in w.signatures && SigningCompleted(w.answers[i].s) in w.audit
            && w.answers[i].s == Signature(w.answers[i].r.intentId, w.answers[i].r.transaction))
      && forall i, j :: 0 <= i < j < |w.answers| && w.answers[i].r.key == w.answers[j].r.key ==>
         w.answers[i] == w.answers[j]
  {
    InitSound(caps);
    RunKeeps(caps, INIT, run);
    var w := Run(caps, INIT, run);
    forall i | 0 <= i < |w.answers|
      ensures AnswerSound(w, w.answers[i]) && w.answers[i] in w.signatures
        && SigningCompleted(w.answers[i].s) in w.audit
      ensures w.answers[i].s == Signature(w.answers[i].r.intentId, w.answers[i].r.transaction)
    {
      assert ResponseSound(w, w.answers[i].r.key);
      var k :| 0 <= k < |w.signatures| && w.signatures[k] == w.answers[i];
      assert SignatureSound(caps, w, w.signatures[k]);
    }
  }

  /** A stored response never changes afterwards, and a retry of its request is answered with it: the stored
      signature always passes verification. */
  lemma StoredResponseIsReplayed(caps: Caps, run: seq<Label>, more: seq<Label>, r: Request, f: nat)
    requires var w := Run(caps, INIT, run);
      r.key in w.rows && w.rows[r.key].response.Some? && w.rows[r.key].request == r
    requires var w' := Run(caps, Run(caps, INIT, run), more); f in w'.flights && w'.flights[f] == Admitted(r)
    ensures var w, w' := Run(caps, INIT, run), Run(caps, Run(caps, INIT, run), more);
      Next(caps, w', Step(f, Done)).answers == w'.answers + [Answer(r, w.rows[r.key].response.value)]
  {
    hide WithinCaps, RowsUnique, Run;
    InitSound(caps);
    RunKeeps(caps, INIT, run);
    var w := Run(caps, INIT, run);
    RunKeeps(caps, w, more);
    var w' := Run(caps, w, more);
    assert ResponseSound(w', r.key);
    var k :| 0 <= k < |w'.signatures| && w'.signatures[k] == Answer(r, w'.rows[r.key].response.value);
    assert SignatureSound(caps, w', w'.signatures[k]);
  }

  // ---------------------------------------------------------------------------
  // The signer object
  // ---------------------------------------------------------------------------

  /** How the writes of one request turn out, and its signing. */
  datatype Faults = Faults(reserve: WriteOutcome, audit1: WriteOutcome, sign: WriteOutcome, audit2: WriteOutcome,
                           complete: WriteOutcome)

  function Then(caps: Caps, w: World, write: WriteOutcome): World {
    Next(caps, w, Step(0, write))
  }

  /** One request stepped to its end with no other request in between. */
  function Alone(caps: Caps, w: World, r: Request, authorized: bool, x: Faults): World {
    AloneFrom(caps, Then(caps, Then(caps, Next(caps, w, Submit(0, r, authorized)), Done), x.reserve), x)
  }

  /** The steps after the reservation. */
  function AloneFrom(caps: Caps, w: World, x: Faults): World {
    Then(caps, Then(caps, Then(caps, Then(caps, w, x.audit1), x.sign), x.audit2), x.complete)
  }

  class Signer {
    const caps: Caps
    var rows: Rows
    var audit: seq<AuditRow>
    ghost var signatures: seq<Answer>
    ghost var answers: seq<Answer>

    constructor (caps: Caps)
      ensures this.caps == caps && View() == INIT
    {
      this.caps := caps;
      rows, audit, signatures, answers := map[], [], [], [];
    }

    ghost function View(): World
      reads this
    {
      World(rows, audit, map[], signatures, answers)
    }

    /** `sign`: the result, or `None` when it throws. */
    method Sign(r: Request, authorized: bool, x: Faults) returns (result: Option<Signature>)
      modifies this
      ensures View() == Alone(caps, old(View()), r, authorized, x)
      ensures result.None? ==> answers == old(answers)
      ensures result.Some? ==> answers == old(answers) + [Answer(r, result.value)]
      ensures result.Some? ==> result.value == Signature(r.intentId, r.transaction)
      ensures result.Some? && r.key !in old(rows) ==>
        && rows == old(rows)[r.key := Row(r.intentId, r.transaction.nonce, r, result)]
        && audit == old(audit)
             + [SigningRequested(r.intentId, r.transaction.nonce), SigningCompleted(result.value)]
      ensures x == Faults(Done, Done, Done, Done, Done) ==>
        (result.Some? <==>
          var t := r.transaction;
          && authorized && 21000 <= t.gas <= caps.maxGas && 0 < t.maxFeePerGas <= caps.maxFeePerGas
          && t.maxPriorityFeePerGas <= t.maxFeePerGas && t.gas * t.maxFeePerGas <= caps.maxTotalFee
          && if r.key in old(rows) then
               old(rows)[r.key].request == r && old(rows)[r.key].response == Some(Signature(r.intentId, t))
             else forall k :: k in old(rows) ==>
               old(rows)[k].intentId != r.intentId && old(rows)[k].nonce != t.nonce)
    {
      hide Alone;
      ghost var was := View();
      AloneIs(caps, was, r, authorized, x);
      result := None;
      if !authorized || !WithinCaps(caps, r.transaction) {
        return;
      }
      match Find(rows, r) {
        case Unresolved => return;
        case Stored(cached) =>
          answers := answers + [Answer(r, cached)];
          result := Some(cached);
          return;
        case Absent =>
      }
      var (reservedRows, reserved) := Reserve(rows, r);
      if !reserved || x.reserve.Lost? {
        return;
      }
      rows := reservedRows;
      if x.reserve.Half? {
        return;
      }
      result := SignReserved(r, x);
    }

    /** From the reserved row on. */
    method SignReserved(r: Request, x: Faults) returns (result: Option<Signature>)
      requires r.key in rows && rows[r.key].response.None?
      modifies this
      ensures View() == AloneReserved(old(View()), r, x)
      ensures result == if AllDone(x) then Some(SignTransaction(r)) else None
    {
      result := None;
      if !x.audit1.Lost? {
        audit := audit + [SigningRequested(r.intentId, r.transaction.nonce)];
      }
      if !x.audit1.Done? || x.sign.Lost? {
        return;
      }
      var signature := SignTransaction(r);
      signatures := signatures + [Answer(r, signature)];
      if x.sign.Half? {
        return;
      }
      if !x.audit2.Lost? {
        audit := audit + [SigningCompleted(signature)];
      }
      if !x.audit2.Done? {
        return;
      }
      var (completedRows, completed) := Complete(rows, r.key, signature);
      if !completed || x.complete.Lost? {
        return;
      }
      rows := completedRows;
      if x.complete.Half? {
        return;
      }
      answers := answers + [Answer(r, signature)];
      result := Some(signature);
    }
  }

  lemma FlightEnds(w: World, p: Phase)
    requires w.flights == map[]
    ensures Gone(Moved(w, 0, p), 0) == w
  {
    assert map[0 := p] - {0} == map[];
  }

  predicate AllDone(x: Faults) {
    x.audit1.Done? && x.sign.Done? && x.audit2.Done? && x.complete.Done?
  }

  /** What the steps after the reservation leave behind, by the first one that fails. */
  function AloneReserved(w: World, r: Request, x: Faults): World
    requires r.key in w.rows
  {
    var s := SignTransaction(r);
    var signing := x.audit1.Done? && !x.sign.Lost?;
    var signed := x.audit1.Done? && x.sign.Done?;
    var stored := signed && x.audit2.Done? && !x.complete.Lost?;
    World(
      if stored then w.rows[r.key := w.rows[r.key].(response := Some(s))] else w.rows,
      w.audit + (if x.audit1.Lost? then [] else [SigningRequested(r.intentId, r.transaction.nonce)])
              + (if signed && !x.audit2.Lost? then [SigningCompleted(s)] else []),
      w.flights,
      w.signatures + (if signing then [Answer(r, s)] else []),
      w.answers + (if AllDone(x) then [Answer(r, s)] else []))
  }

  lemma AloneIs(caps: Caps, w: World, r: Request, authorized: bool, x: Faults)
    requires w.flights == map[]
    ensures Alone(caps, w, r, authorized, x) ==
      if !authorized || !WithinCaps(caps, r.transaction) then w
      else
        match Find(w.rows, r)
        case Unresolved => w
        case Stored(s) => w.(answers := w.answers + [Answer(r, s)])
        case Absent =>
          if Taken(w.rows, r) || x.reserve.Lost? then w
          else
            var reserved := w.(rows := Reserve(w.rows, r).0);
            if x.reserve.Half? then reserved else AloneReserved(reserved, r, x)
  {
    hide WithinCaps, Taken, Then, Advance, AloneReserved;
    var submitted := Next(caps, w, Submit(0, r, authorized));
    var tried := Then(caps, Then(caps, submitted, Done), x.reserve);
    if !authorized || !WithinCaps(caps, r.transaction) {
      Idle(caps, w, Done);
      Idle(caps, w, x.reserve);
      IdleToTheEnd(caps, w, x);
    } else {
      FromAdmitted(caps, w, r, x.reserve);
      if Find(w.rows, r).Absent? && !Taken(w.rows, r) && x.reserve.Done? {
        ReservedIs(caps, w.(rows := Reserve(w.rows, r).0), r, x);
      } else {
        IdleToTheEnd(caps, tried, x);
      }
    }
  }

  lemma Idle(caps: Caps, w: World, write: WriteOutcome)
    requires w.flights == map[]
    ensures Then(caps, w, write) == w
  {
  }

  lemma IdleToTheEnd(caps: Caps, w: World, x: Faults)
    requires w.flights == map[]
    ensures AloneFrom(caps, w, x) == w
  {
  }

  /** The lookup and the reservation. */
  lemma FromAdmitted(caps: Caps, w: World, r: Request, write: WriteOutcome)
    requires w.flights == map[]
    ensures Then(caps, Then(caps, Moved(w, 0, Admitted(r)), Done), write) ==
      match Find(w.rows, r)
      case Unresolved => w
      case Stored(s) => w.(answers := w.answers + [Answer(r, s)])
      case Absent =>
        if Taken(w.rows, r) || write.Lost? then w
        else
          var reserved := w.(rows := Reserve(w.rows, r).0);
          if write.Half? then reserved else Moved(reserved, 0, Reserved(r))
  {
    hide WithinCaps, Taken;
    FlightEnds(w, Admitted(r));
    FlightEnds(w, Unreserved(r));
    assert map[0 := Admitted(r)][0 := Unreserved(r)] == map[0 := Unreserved(r)];
    assert map[0 := Unreserved(r)][0 := Reserved(r)] == map[0 := Reserved(r)];
  }

  lemma ReservedIs(caps: Caps, w: World, r: Request, x: Faults)
    requires w.flights == map[] && r.key in w.rows && w.rows[r.key].response.None?
    ensures AloneFrom(caps, Moved(w, 0, Reserved(r)), x) == AloneReserved(w, r, x)
  {
    hide WithinCaps, Then;
    var s, requested := SignTransaction(r), [SigningRequested(r.intentId, r.transaction.nonce)];
    Audit1Is(caps, w, r, x.audit1);
    assert w.audit + [] == w.audit && w.signatures + [] == w.signatures && w.answers + [] == w.answers;
    if x.audit1.Done? {
      var w1 := w.(audit := w.audit + requested);
      SignIs(caps, w1, r, x.sign);
      if x.sign.Done? {
        var w2 := w1.(signatures := w.signatures + [Answer(r, s)]);
        Audit2Is(caps, w2, r, s, x.audit2);
        if x.audit2.Done? {
          CompleteIs(caps, w2.(audit := w2.audit + [SigningCompleted(s)]), r, s, x.complete);
        } else {
          IdleEnd(caps, Then(caps, Moved(w2, 0, Signed(r, s)), x.audit2), x, 3);
        }
      } else {
        IdleEnd(caps, Then(caps, Moved(w1, 0, Requested(r)), x.sign), x, 2);
      }
    } else {
      IdleEnd(caps, Then(caps, Moved(w, 0, Reserved(r)), x.audit1), x, 1);
    }
  }

  /** Once the flight has ended the remaining steps change nothing. */
  lemma IdleEnd(caps: Caps, w: World, x: Faults, step: nat)
    requires w.flights == map[]
    ensures step <= 3 ==> Then(caps, w, x.complete) == w
    ensures step <= 2 ==> Then(caps, Then(caps, w, x.audit2), x.complete) == w
    ensures step <= 1 ==> Then(caps, Then(caps, Then(caps, w, x.sign), x.audit2), x.complete) == w
  {
  }

  lemma Audit1Is(caps: Caps, w: World, r: Request, write: WriteOutcome)
    requires w.flights == map[]
    ensures var logged := Logging(w, SigningRequested(r.intentId, r.transaction.nonce), write);
      Then(caps, Moved(w, 0, Reserved(r)), write) == if write.Done? then Moved(logged, 0, Requested(r)) else logged
  {
    FlightEnds(w, Reserved(r));
    assert map[0 := Reserved(r)][0 := Requested(r)] == map[0 := Requested(r)];
    assert map[0 := Reserved(r)] - {0} == map[];
  }

  lemma SignIs(caps: Caps, w: World, r: Request, write: WriteOutcome)
    requires w.flights == map[]
    ensures var s := SignTransaction(r);
      var made := if write.Lost? then w else w.(signatures := w.signatures + [Answer(r, s)]);
      Then(caps, Moved(w, 0, Requested(r)), write) == if write.Done? then Moved(made, 0, Signed(r, s)) else made
  {
    var s := SignTransaction(r);
    assert map[0 := Requested(r)][0 := Signed(r, s)] == map[0 := Signed(r, s)];
    assert map[0 := Requested(r)] - {0} == map[];
  }

  lemma Audit2Is(caps: Caps, w: World, r: Request, s: Signature, write: WriteOutcome)
    requires w.flights == map[]
    ensures var logged := Logging(w, SigningCompleted(s), write);
      Then(caps, Moved(w, 0, Signed(r, s)), write) == if write.Done? then Moved(logged, 0, Audited(r, s)) else logged
  {
    assert map[0 := Signed(r, s)][0 := Audited(r, s)] == map[0 := Audited(r, s)];
    assert map[0 := Signed(r, s)] - {0} == map[];
  }

  lemma CompleteIs(caps: Caps, w: World, r: Request, s: Signature, write: WriteOutcome)
    requires w.flights == map[] && r.key in w.rows && w.rows[r.key].response.None?
    ensures var stored := w.(rows := Complete(w.rows, r.key, s).0);
      Then(caps, Moved(w, 0, Audited(r, s)), write) ==
        match write
        case Lost => w
        case Half => stored
        case Done => stored.(answers := w.answers + [Answer(r, s)])
  {
    assert map[0 := Audited(r, s)] - {0} == map[];
  }
}
