/**
 * Any number of `project` calls over one timelog and one adapter, interleaved with every
 * other change of the file, with failed writes, failed sends and crashes.
 */
module ProjectionRuns {
  import opened Text
  import opened TimelogModel
  import opened TimelogFields
  import opened TimelogRoundTrip
  import opened TimelogText
  import opened TimelogStable
  import opened TimelogStore
  import opened TimelogSafe
  import opened TimelogMimics
  import opened Projection

  /** Where a call stands between two visits to the file or the adapter. */
  datatype Pc =
    | Preparing(key: string)
    | Querying(key: string)
    | Queried(key: string, found: Option<string>)
    | Checking(key: string)
    | Intending(key: string)
    | Dispatching(key: string)
    | Dispatched(key: string, answer: string)
    | Failed(key: string)

  /** The text of the timelog, the adapter, and the calls under way. */
  datatype World = World(file: Option<string>, sent: Sent, calls: map<nat, Pc>)

  datatype Kind = Prepare | Send | Reconcile

  /** The destination and mark fields of a receipt, and whether the write fails. */
  datatype Record = Record(destination: string, mark: Mark, fails: bool)

  datatype Action =
    | Begin(call: nat, kind: Kind, key: string)
    | Advance(call: nat, record: Record, failSend: bool)
    | Lost(call: nat)
    | Crash(call: nat)
    | Other(ses: string, expected: Option<string>, mutation: Mutation, fails: bool)
    | Ensure(project: string, openedAt: string)
    | Vanish

  /** The digest that names a batch, without its `proj-` prefix. */
  predicate IsBatchKey(key: string) { key != "" && forall c | c in key :: IsDigit(c) || 'a' <= c <= 'f' }

  function ReceiptKey(key: string): string { "proj_" + key }

  function MarkKey(key: string): string { "prj_" + key }

  predicate Settles(state: string) { state != "prepared" && state != "sent" }

  function ReceiptOf(state: string, remote: string, r: Record): Receipt {
    Receipt("timelog.project", if Settles(state) then "settled" else "pending", r.destination, state, remote)
  }

  function MarkOf(state: string, remote: string, r: Record): Mark {
    r.mark.(operation := "timelog.project", status := if Settles(state) then "settled" else "pending",
            destination := r.destination, state := state, remote := remote)
  }

  function Recording(key: string, state: string, remote: string, r: Record): Mutation {
    RecordReceipt(ReceiptKey(key), ReceiptOf(state, remote, r), MarkKey(key), MarkOf(state, remote, r))
  }

  /** The texts of a call keep the timelog readable. */
  predicate SafeRecord(r: Record) { FitReceipt(ReceiptOf("sent", "", r)) && FitMark(MarkOf("sent", "", r)) }

  /** `_record_receipt`, whose caller ignores a failed write. */
  ghost function DoRecord(w: World, session: string, key: string, state: string, remote: string, r: Record): World {
    w.(file := DoUpdate(w.file, session, None, Recording(key, state, remote, r), r.fails).0)
  }

  /** The receipt of a batch as `get_receipt` reads it. */
  function ReceiptIn(w: World, key: string): Option<Receipt> {
    if w.file.None? || Parsed(w.file.value).None? then None
    else
      var receipts := Parsed(w.file.value).value.receipts;
      if ReceiptKey(key) in receipts then Some(receipts[ReceiptKey(key)]) else None
  }

  predicate Confirmed(w: World, key: string) { ReceiptIn(w, key).Some? && ReceiptIn(w, key).value.state == "confirmed" }

  function At(w: World, call: nat, pc: Pc): World { w.(calls := w.calls[call := pc]) }

  function Done(w: World, call: nat): World { w.(calls := w.calls - {call}) }

  ghost function Advanced(w: World, session: string, call: nat, r: Record, failSend: bool): World
    requires call in w.calls
  {
    match w.calls[call]
    case Preparing(key) => Done(DoRecord(w, session, key, "prepared", "", r), call)
    case Querying(key) => At(w, call, Queried(key, if key in w.sent then Some(RemoteName(w.sent[key])) else None))
    case Queried(key, remote) =>
      Done(if remote.None? then DoRecord(w, session, key, "unknown", "", r)
           else DoRecord(w, session, key, "confirmed", remote.value, r), call)
    case Checking(key) => if Confirmed(w, key) then Done(w, call) else At(w, call, Intending(key))
    case Intending(key) => At(DoRecord(w, session, key, "sent", "", r), call, Dispatching(key))
    case Dispatching(key) =>
      if failSend then At(w, call, Failed(key))
      else At(w.(sent := DoSend(w.sent, key)), call, Dispatched(key, RemoteName(DoSend(w.sent, key)[key])))
    case Dispatched(key, remote) => Done(DoRecord(w, session, key, "confirmed", remote, r), call)
    case Failed(key) => Done(DoRecord(w, session, key, "unknown", "", r), call)
  }

  /** What can happen next, with texts that a caller can check before it calls. */
  predicate Enabled(w: World, session: string, a: Action) {
    match a
    case Begin(call, _, key) => call !in w.calls && IsBatchKey(key)
    case Advance(call, r, _) => call in w.calls && SafeRecord(r)
    case Lost(call) => call in w.calls && w.calls[call].Dispatching?
    case Crash(call) => call in w.calls
    case Other(_, _, m, _) => !m.RecordReceipt? && Harmless(m)
    case Ensure(project, openedAt) => Good(NewDocument(project, session, openedAt))
    case Vanish => true
  }

  ghost function Step(w: World, session: string, a: Action): World
    requires Enabled(w, session, a)
  {
    match a
    case Begin(call, kind, key) =>
      At(w, call, if kind.Prepare? then Preparing(key) else if kind.Send? then Checking(key) else Querying(key))
    case Advance(call, r, failSend) => Advanced(w, session, call, r, failSend)
    // The provider took the batch, but the answer never came.
    case Lost(call) => At(w.(sent := DoSend(w.sent, w.calls[call].key)), call, Failed(w.calls[call].key))
    case Crash(call) => Done(w, call)
    case Other(ses, expected, m, fails) => w.(file := DoUpdate(w.file, ses, expected, m, fails).0)
    case Ensure(project, openedAt) => w.(file := DoEnsure(w.file, NewDocument(project, session, openedAt), false))
    case Vanish => w.(file := None)
  }

  // ------------------------------------------------------------------------- the invariant

  /** Confirmed receipts name the entry the adapter holds for their key. */
  ghost predicate Honest(receipts: map<string, Receipt>, sent: Sent) {
    forall key | ReceiptKey(key) in receipts && receipts[ReceiptKey(key)].state == "confirmed" ::
      key in sent && receipts[ReceiptKey(key)].remote == RemoteName(sent[key])
  }

  predicate PcHonest(pc: Pc, sent: Sent) {
    match pc
    case Queried(key, remote) => remote.Some? ==> key in sent && remote.value == RemoteName(sent[key])
    case Dispatched(key, remote) => key in sent && remote == RemoteName(sent[key])
    case _ => true
  }

  ghost predicate HonestFile(file: Option<string>, sent: Sent) {
    file.Some? ==> exists d :: Reads(file, d) && Good(d) && Honest(d.receipts, sent)
  }

  ghost predicate HonestCalls(calls: map<nat, Pc>, sent: Sent) {
    forall c | c in calls :: IsBatchKey(calls[c].key) && PcHonest(calls[c], sent)
  }

  ghost predicate Inv(w: World) { Numbered(w.sent) && HonestFile(w.file, w.sent) && HonestCalls(w.calls, w.sent) }

  lemma ReceiptKeysDiffer(a: string, b: string)
    requires ReceiptKey(a) == ReceiptKey(b)
    ensures a == b
  {
    assert ReceiptKey(a)[5..] == a && ReceiptKey(b)[5..] == b;
  }

  /** Any other mutation leaves the receipts' states and remotes alone. */
  lemma OtherReceipts(d: Document, m: Mutation)
    requires !m.RecordReceipt? && Mutate(d, m).Changed?
    ensures var r := Mutate(d, m).document.receipts;
      r.Keys == d.receipts.Keys && forall k | k in r :: r[k].state == d.receipts[k].state && r[k].remote == d.receipts[k].remote
  {}

  lemma NormalReceiptsHonest(d: Document, sent: Sent)
    requires Honest(d.receipts, sent)
    ensures Honest(NormalReceipts(d.receipts), sent)
  {
    var n := NormalReceipts(d.receipts);
    forall key | ReceiptKey(key) in n && n[ReceiptKey(key)].state == "confirmed"
      ensures key in sent && n[ReceiptKey(key)].remote == RemoteName(sent[key])
    {
      assert d.receipts[ReceiptKey(key)].state == "confirmed";
      RemoteIsClean(sent[key]);
    }
  }

  /** An update whose mutation keeps the receipts honest keeps the file honest. */
  lemma UpdateHonest(
      file: Option<string>, d: Document, sent: Sent, ses: string, expected: Option<string>, m: Mutation, fails: bool)
    requires Reads(file, d) && Good(d) && Honest(d.receipts, sent) && Harmless(m)
    requires Mutate(d, m).Changed? ==> Honest(Mutate(d, m).document.receipts, sent)
    ensures HonestFile(DoUpdate(file, ses, expected, m, fails).0, sent)
  {
    UpdateReads(file, d, ses, expected, m, fails);
    if DoUpdate(file, ses, expected, m, fails).1.Applied? {
      NormalReceiptsHonest(Mutate(d, m).document, sent);
      assert After(d, m).receipts == NormalReceipts(Mutate(d, m).document.receipts);
    }
  }

  lemma OtherHonest(d: Document, m: Mutation, sent: Sent)
    requires !m.RecordReceipt? && Mutate(d, m).Changed? && Honest(d.receipts, sent)
    ensures Honest(Mutate(d, m).document.receipts, sent)
  {
    OtherReceipts(d, m);
  }

  lemma OtherKeeps(
      file: Option<string>, sent: Sent, ses: string, expected: Option<string>, m: Mutation, fails: bool)
    requires HonestFile(file, sent) && !m.RecordReceipt? && Harmless(m)
    ensures HonestFile(DoUpdate(file, ses, expected, m, fails).0, sent)
  {
    if file.Some? {
      var d :| Reads(file, d) && Good(d) && Honest(d.receipts, sent);
      if Mutate(d, m).Changed? {
        OtherHonest(d, m, sent);
      }
      UpdateHonest(file, d, sent, ses, expected, m, fails);
    }
  }

  lemma EnsureKeeps(file: Option<string>, sent: Sent, created: Document)
    requires HonestFile(file, sent) && Good(created) && created.receipts == map[]
    ensures HonestFile(DoEnsure(file, created, false), sent)
  {
    if file.None? {
      GoodReads(created);
      NormalIsGood(created);
      assert Reads(Some(Serialized(created)), Normal(created)) && Honest(Normal(created).receipts, sent);
    }
  }

  // ---------------------------------------------------------------------- recorded texts

  lemma StatesAreWords(state: string)
    requires state in ["prepared", "sent", "unknown", "confirmed"]
    ensures Word(state)
  {}

  lemma RemoteIsWord(n: nat)
    ensures Word(RemoteName(n)) && Clean(RemoteName(n)) == RemoteName(n)
  {
    RemoteIsClean(n);
    ZeroPadRoundTrip(n, 4);
    assert RemoteName(n) == "local-" + ZeroPad(n, 4);
  }

  lemma KeyIsName(prefix: string, key: string)
    requires prefix in ["proj_", "prj_"] && IsBatchKey(key)
    ensures IsName(prefix + key)
  {
    assert key[|key| - 1] in key;
    assert (prefix + key)[|prefix + key| - 1] == key[|key| - 1];
  }

  lemma StatusWord(state: string)
    ensures Word(if Settles(state) then "settled" else "pending")
  {}

  /** Whatever is recorded of a safe call keeps the timelog readable. */
  lemma RecordHarmless(key: string, state: string, remote: string, r: Record)
    requires IsBatchKey(key) && SafeRecord(r) && Word(state) && Word(remote) && Clean(remote) == remote
    ensures Harmless(Recording(key, state, remote, r))
  {
    KeyIsName("proj_", key);
    KeyIsName("prj_", key);
    ReceiptOfFits(state, remote, r);
    MarkOfFits(state, remote, r);
  }

  lemma ReceiptOfFits(state: string, remote: string, r: Record)
    requires SafeRecord(r) && Word(state) && Word(remote) && Clean(remote) == remote
    ensures FitReceipt(ReceiptOf(state, remote, r))
  {
    StatusWord(state);
    ReceiptSwap(ReceiptOf("sent", "", r), ReceiptOf(state, remote, r));
  }

  lemma ReceiptSwap(a: Receipt, b: Receipt)
    requires FitReceipt(a) && b == a.(status := b.status, state := b.state, remote := b.remote)
    requires Word(b.status) && Word(b.state) && Word(b.remote) && Clean(b.remote) == b.remote
    ensures FitReceipt(b)
  {
    var f, g := ReceiptFields(a, "0"), ReceiptFields(b, "0");
    forall i | 0 <= i < |f| ensures g[i] == f[i] || (g[i].key == f[i].key && Word(g[i].value)) {}
    WordsFit(f, g, RECEIPT_KEYS);
  }

  lemma MarkOfFits(state: string, remote: string, r: Record)
    requires SafeRecord(r) && Word(state) && Word(remote) && Clean(remote) == remote
    ensures FitMark(MarkOf(state, remote, r))
  {
    StatusWord(state);
    MarkSwap(MarkOf("sent", "", r), MarkOf(state, remote, r));
  }

  lemma MarkSwap(a: Mark, b: Mark)
    requires FitMark(a) && b == a.(status := b.status, state := b.state, remote := b.remote)
    requires Word(b.status) && Word(b.state) && Word(b.remote) && Clean(b.remote) == b.remote
    ensures FitMark(b)
  {
    var f, g := MarkFields(a, "0"), MarkFields(b, "0");
    forall i | 0 <= i < |f| ensures g[i] == f[i] || (g[i].key == f[i].key && Word(g[i].value)) {}
    WordsFit(f, g, MARK_KEYS);
  }

  lemma RecordedHonest(receipts: map<string, Receipt>, sent: Sent, key: string, receipt: Receipt)
    requires Honest(receipts, sent)
    requires receipt.state == "confirmed" ==> key in sent && receipt.remote == RemoteName(sent[key])
    ensures Honest(receipts[ReceiptKey(key) := receipt], sent)
  {
    forall k | ReceiptKey(k) == ReceiptKey(key) ensures k == key {
      ReceiptKeysDiffer(k, key);
    }
  }

  lemma RecordHonest(
      file: Option<string>, sent: Sent, session: string, key: string, state: string, remote: string, r: Record)
    requires HonestFile(file, sent) && Harmless(Recording(key, state, remote, r))
    requires state == "confirmed" ==> key in sent && remote == RemoteName(sent[key])
    ensures HonestFile(DoUpdate(file, session, None, Recording(key, state, remote, r), r.fails).0, sent)
  {
    if file.Some? {
      var d :| Reads(file, d) && Good(d) && Honest(d.receipts, sent);
      RecordedHonest(d.receipts, sent, key, ReceiptOf(state, remote, r));
      UpdateHonest(file, d, sent, session, None, Recording(key, state, remote, r), r.fails);
    }
  }

  lemma RecordKeeps(w: World, session: string, key: string, state: string, remote: string, r: Record)
    requires Inv(w) && IsBatchKey(key) && SafeRecord(r) && state in ["prepared", "sent", "unknown", "confirmed"]
    requires if state == "confirmed" then key in w.sent && remote == RemoteName(w.sent[key]) else remote == ""
    ensures Inv(DoRecord(w, session, key, state, remote, r))
  {
    StatesAreWords(state);
    CleanEmpty();
    if state == "confirmed" {
      RemoteIsWord(w.sent[key]);
    }
    RecordHarmless(key, state, remote, r);
    RecordHonest(w.file, w.sent, session, key, state, remote, r);
  }

  lemma DoneKeeps(w: World, call: nat)
    requires Inv(w)
    ensures Inv(Done(w, call))
  {}

  lemma AtKeeps(w: World, call: nat, pc: Pc)
    requires Inv(w) && PcHonest(pc, w.sent) && IsBatchKey(pc.key)
    ensures Inv(At(w, call, pc))
  {}

  lemma SendNumbered(sent: Sent, key: string)
    requires Numbered(sent)
    ensures Numbered(DoSend(sent, key)) && key in DoSend(sent, key)
    ensures forall k | k in sent :: k in DoSend(sent, key) && DoSend(sent, key)[k] == sent[k]
  {
    var after := DoSend(sent, key);
    assert key !in sent ==> after.Keys == sent.Keys + {key};
  }

  lemma SendKeeps(w: World, key: string)
    requires Inv(w)
    ensures Inv(w.(sent := DoSend(w.sent, key))) && key in DoSend(w.sent, key)
  {
    SendNumbered(w.sent, key);
    GrownStaysHonest(w, DoSend(w.sent, key));
  }

  lemma GrownStaysHonest(w: World, sent: Sent)
    requires Inv(w) && Numbered(sent) && forall k | k in w.sent :: k in sent && sent[k] == w.sent[k]
    ensures Inv(w.(sent := sent))
  {
    if w.file.Some? {
      var d :| Reads(w.file, d) && Good(d) && Honest(d.receipts, w.sent);
      assert Honest(d.receipts, sent);
    }
  }

  lemma AdvanceKeeps(w: World, session: string, call: nat, r: Record, failSend: bool)
    requires Inv(w) && call in w.calls && SafeRecord(r)
    ensures Inv(Advanced(w, session, call, r, failSend))
  {
    assert PcHonest(w.calls[call], w.sent);
    match w.calls[call] {
      case Preparing(key) =>
        RecordKeeps(w, session, key, "prepared", "", r);
        DoneKeeps(DoRecord(w, session, key, "prepared", "", r), call);
      case Querying(key) => AtKeeps(w, call, Queried(key, if key in w.sent then Some(RemoteName(w.sent[key])) else None));
      case Queried(key, remote) =>
        var state, text := if remote.None? then "unknown" else "confirmed", if remote.None? then "" else remote.value;
        RecordKeeps(w, session, key, state, text, r);
        DoneKeeps(DoRecord(w, session, key, state, text, r), call);
      case Checking(key) =>
        DoneKeeps(w, call);
        AtKeeps(w, call, Intending(key));
      case Intending(key) =>
        RecordKeeps(w, session, key, "sent", "", r);
        AtKeeps(DoRecord(w, session, key, "sent", "", r), call, Dispatching(key));
      case Dispatching(key) =>
        SendKeeps(w, key);
        AtKeeps(w, call, Failed(key));
        AtKeeps(w.(sent := DoSend(w.sent, key)), call, Dispatched(key, RemoteName(DoSend(w.sent, key)[key])));
      case Dispatched(key, remote) =>
        RecordKeeps(w, session, key, "confirmed", remote, r);
        DoneKeeps(DoRecord(w, session, key, "confirmed", remote, r), call);
      case Failed(key) =>
        RecordKeeps(w, session, key, "unknown", "", r);
        DoneKeeps(DoRecord(w, session, key, "unknown", "", r), call);
    }
  }

  lemma StepKeeps(w: World, session: string, a: Action)
    requires Inv(w) && Enabled(w, session, a)
    ensures Inv(Step(w, session, a))
  {
    match a {
      case Advance(call, r, failSend) => AdvanceKeeps(w, session, call, r, failSend);
      case Lost(call) =>
        SendKeeps(w, w.calls[call].key);
        AtKeeps(w.(sent := DoSend(w.sent, w.calls[call].key)), call, Failed(w.calls[call].key));
      case Other(ses, expected, m, fails) => OtherKeeps(w.file, w.sent, ses, expected, m, fails);
      case Ensure(project, openedAt) => EnsureKeeps(w.file, w.sent, NewDocument(project, session, openedAt));
      case Crash(call) => DoneKeeps(w, call);
      case _ =>
    }
  }

  // ------------------------------------------------------------------------------ runs

  ghost predicate StepsAt(ws: seq<World>, session: string, acts: seq<Action>, k: nat)
    requires k < |acts| && |ws| == |acts| + 1
  { Enabled(ws[k], session, acts[k]) && ws[k + 1] == Step(ws[k], session, acts[k]) }

  ghost predicate IsRun(ws: seq<World>, session: string, acts: seq<Action>) {
    |ws| == |acts| + 1 && forall k | 0 <= k < |acts| :: StepsAt(ws, session, acts, k)
  }

  /** No receipts yet, nothing sent, no call. */
  ghost predicate Clear(w: World) {
    && w.sent == map[] && w.calls == map[]
    && (w.file.Some? ==> exists d :: Reads(w.file, d) && Good(d) && d.receipts == map[])
  }

  lemma ClearIsHonest(w: World)
    requires Clear(w)
    ensures Inv(w)
  {
    if w.file.Some? {
      var d :| Reads(w.file, d) && Good(d) && d.receipts == map[];
      assert Honest(d.receipts, w.sent);
    }
  }

  lemma {:induction false} RunInv(ws: seq<World>, session: string, acts: seq<Action>, k: nat)
    requires IsRun(ws, session, acts) && Clear(ws[0]) && k < |ws|
    ensures Inv(ws[k])
  {
    if k == 0 {
      ClearIsHonest(ws[0]);
    } else {
      RunInv(ws, session, acts, k - 1);
      assert StepsAt(ws, session, acts, k - 1);
      StepKeeps(ws[k - 1], session, acts[k - 1]);
    }
  }

  lemma RecordSent(w: World, session: string, key: string, state: string, remote: string, r: Record)
    ensures DoRecord(w, session, key, state, remote, r) == w.(file := DoRecord(w, session, key, state, remote, r).file)
  {}

  /** Only a dispatch changes what the adapter holds. */
  lemma AdvancedSent(w: World, session: string, call: nat, r: Record, failSend: bool)
    requires call in w.calls
    ensures Advanced(w, session, call, r, failSend).sent in [w.sent, DoSend(w.sent, w.calls[call].key)]
  {
    match w.calls[call] {
      case Preparing(key) => RecordSent(w, session, key, "prepared", "", r);
      case Querying(key) =>
      case Queried(key, remote) =>
        RecordSent(w, session, key, "unknown", "", r);
        if remote.Some? {
          RecordSent(w, session, key, "confirmed", remote.value, r);
        }
      case Checking(key) =>
      case Intending(key) => RecordSent(w, session, key, "sent", "", r);
      case Dispatching(key) =>
      case Dispatched(key, remote) => RecordSent(w, session, key, "confirmed", remote, r);
      case Failed(key) => RecordSent(w, session, key, "unknown", "", r);
    }
  }

  lemma SentStep(w: World, session: string, a: Action, key: string)
    requires Enabled(w, session, a) && key in w.sent
    ensures key in Step(w, session, a).sent && Step(w, session, a).sent[key] == w.sent[key]
  {
    if a.Advance? {
      AdvancedSent(w, session, a.call, a.record, a.failSend);
    }
  }

  /** One remote entry per batch: once a key is sent its entry never changes, whatever is retried. */
  lemma {:induction false} OneRemotePerKey(ws: seq<World>, session: string, acts: seq<Action>, i: nat, k: nat, key: string)
    requires IsRun(ws, session, acts) && i <= k < |ws| && key in ws[i].sent
    ensures key in ws[k].sent && RemoteName(ws[k].sent[key]) == RemoteName(ws[i].sent[key])
    ensures ws[k].sent[key] == ws[i].sent[key]
    decreases k
  {
    if i < k {
      OneRemotePerKey(ws, session, acts, i, k - 1, key);
      assert StepsAt(ws, session, acts, k - 1);
      SentStep(ws[k - 1], session, acts[k - 1], key);
    }
  }

  /** Different batches never share a remote entry. */
  lemma RemotesDistinct(ws: seq<World>, session: string, acts: seq<Action>, k: nat, a: string, b: string)
    requires IsRun(ws, session, acts) && Clear(ws[0]) && k < |ws|
    requires a in ws[k].sent && b in ws[k].sent && RemoteName(ws[k].sent[a]) == RemoteName(ws[k].sent[b])
    ensures a == b
  {
    RunInv(ws, session, acts, k);
    RemotesDiffer(ws[k].sent[a], ws[k].sent[b]);
  }

  /** A confirmed receipt names the remote entry the adapter holds, then and ever after. */
  lemma ConfirmedIsHeld(ws: seq<World>, session: string, acts: seq<Action>, i: nat, k: nat, key: string)
    requires IsRun(ws, session, acts) && Clear(ws[0]) && i <= k < |ws| && Confirmed(ws[i], key)
    ensures key in ws[k].sent && ReceiptIn(ws[i], key).value.remote == RemoteName(ws[k].sent[key])
  {
    RunInv(ws, session, acts, i);
    ConfirmedNames(ws[i], key);
    OneRemotePerKey(ws, session, acts, i, k, key);
  }

  lemma ConfirmedNames(w: World, key: string)
    requires Inv(w) && Confirmed(w, key)
    ensures key in w.sent && ReceiptIn(w, key).value.remote == RemoteName(w.sent[key])
  {}

  // ----------------------------------------------- a destination that mimics the remote field

  lemma OperationWord()
    ensures Word("timelog.project")
  {}

  lemma WordIsClean(v: string)
    requires Word(v) && Trimmed(v)
    ensures Clean(v) == v
  {
    WordIsPlain(v);
    CleanPlain(v);
  }

  lemma OperationClean()
    ensures Word("timelog.project") && Clean("timelog.project") == "timelog.project"
  {
    OperationWord();
    WordIsClean("timelog.project");
  }

  lemma ReceiptIsWords(state: string, remote: string, r: Record)
    requires state == "confirmed" && Word(remote) && Clean(remote) == remote && PlainText(Clean(r.destination))
    ensures WordReceipt(ReceiptOf(state, remote, r))
  {
    OperationClean();
    StatesAreWords(state);
    StatusWord(state);
    WordIsPlain(remote);
  }

  lemma RecordedTables(d: Document, e: Document, k: string, r: Receipt, mk: string, m: Mark)
    requires PlainTables(d) && IsName(k) && IsName(mk) && Plain(ReceiptFields(r, "")) && Plain(MarkFields(m, ""))
    requires e.blocks == d.blocks && e.receipts == d.receipts[k := r] && e.projections == d.projections[mk := m]
    ensures PlainTables(e)
  {}

  /** What is read after a plain receipt and mark are recorded, fit or not. */
  lemma RecordReads(d: Document, key: string, r: Receipt, markKey: string, m: Mark, next: string) returns (e: Document)
    requires Good(d) && IsName(key) && IsName(markKey) && AllDigits(next)
    requires Plain(ReceiptFields(r, "")) && Plain(MarkFields(m, ""))
    ensures Parsed(Serialized(d.(receipts := d.receipts[key := r], projections := d.projections[markKey := m], revision := next)))
         == Some(e)
    ensures key in e.receipts && e.receipts[key] == ReadReceipt(r, next)
  {
    var e' := d.(receipts := d.receipts[key := r], projections := d.projections[markKey := m], revision := next);
    GoodReads(d);
    GoodTables(d);
    RecordedTables(d, e', key, r, markKey, m);
    IdentityKept(d, e', d.ses);
    DigitsPlain(next);
    StampedPlain(e');
    ReadsAs(e');
    e := AsRead(e');
  }

  lemma RecordingApplies(w: World, d: Document, session: string, key: string, state: string, remote: string, r: Record)
    requires Reads(w.file, d) && d.ses == session && !r.fails && Next(d.revision).Some?
    ensures DoRecord(w, session, key, state, remote, r).file == Some(Serialized(d.(
              receipts := d.receipts[ReceiptKey(key) := ReceiptOf(state, remote, r)],
              projections := d.projections[MarkKey(key) := MarkOf(state, remote, r)],
              revision := Next(d.revision).value)))
  {}

  /**
   * Why destinations must not end like the start of the remote field: when the provider has
   * answered, the receipt written then reads as confirmed and names no entry of the adapter.
   */
  lemma MimickedDestination(w: World, d: Document, session: string, call: nat, key: string, r: Record) returns (after: World)
    requires Reads(w.file, d) && Good(d) && d.ses == session && IsBatchKey(key) && !r.fails
    requires key in w.sent && call in w.calls && w.calls[call] == Dispatched(key, RemoteName(w.sent[key]))
    requires PlainText(Clean(r.destination)) && Plain(MarkFields(MarkOf("confirmed", RemoteName(w.sent[key]), r), ""))
    requires Mimics(Clean(r.destination), Name(Key.Remote)) && !Mimics(Clean(r.destination), Name(State))
    ensures after == Advanced(w, session, call, r, false) && after.sent == w.sent
    ensures Confirmed(after, key) && ReceiptIn(after, key).value.remote == ",state:" != RemoteName(w.sent[key])
  {
    var remote := RemoteName(w.sent[key]);
    RemoteIsWord(w.sent[key]);
    var text, e := MimickedRecord(d, key, "confirmed", remote, r);
    after := ConfirmStep(w, d, session, call, key, remote, r, text);
    ReadAsConfirmed(after, key, text, e);
    RemoteStart(w.sent[key]);
  }

  lemma ReadAsConfirmed(w: World, key: string, text: string, e: Document)
    requires w.file == Some(text) && Parsed(text) == Some(e) && ReceiptKey(key) in e.receipts
    requires e.receipts[ReceiptKey(key)].state == "confirmed" && e.receipts[ReceiptKey(key)].remote == ",state:"
    ensures Confirmed(w, key) && ReceiptIn(w, key).value.remote == ",state:"
  {}

  lemma RemoteStart(n: nat)
    ensures RemoteName(n) != ",state:"
  {
    assert RemoteName(n)[0] == 'l';
  }

  lemma ConfirmStep(
      w: World, d: Document, session: string, call: nat, key: string, remote: string, r: Record, text: string)
      returns (after: World)
    requires Reads(w.file, d) && d.ses == session && !r.fails && Next(d.revision).Some?
    requires call in w.calls && w.calls[call] == Dispatched(key, remote)
    requires text == Serialized(Recorded(d, key, "confirmed", remote, r, Next(d.revision).value))
    ensures after == Advanced(w, session, call, r, false) && after.sent == w.sent && after.file == Some(text)
  {
    RecordingApplies(w, d, session, key, "confirmed", remote, r);
    after := Done(DoRecord(w, session, key, "confirmed", remote, r), call);
  }

  function Recorded(d: Document, key: string, state: string, remote: string, r: Record, next: string): Document {
    WithReceipt(d, ReceiptKey(key), ReceiptOf(state, remote, r), MarkKey(key), MarkOf(state, remote, r), next)
  }

  lemma MimickedRecord(d: Document, key: string, state: string, remote: string, r: Record) returns (text: string, e: Document)
    requires Good(d) && IsBatchKey(key) && state == "confirmed" && Word(remote) && Clean(remote) == remote
    requires PlainText(Clean(r.destination)) && Plain(MarkFields(MarkOf(state, remote, r), ""))
    requires Mimics(Clean(r.destination), Name(Key.Remote)) && !Mimics(Clean(r.destination), Name(State))
    ensures Next(d.revision).Some? && text == Serialized(Recorded(d, key, state, remote, r, Next(d.revision).value))
    ensures Parsed(text) == Some(e) && ReceiptKey(key) in e.receipts
    ensures e.receipts[ReceiptKey(key)].state == state && e.receipts[ReceiptKey(key)].remote == ",state:"
  {
    ReceiptIsWords(state, remote, r);
    WordReceiptPlain(ReceiptOf(state, remote, r), "", ReceiptFields(ReceiptOf(state, remote, r), ""));
    KeyIsName("proj_", key);
    KeyIsName("prj_", key);
    NextDigitsOf(d.revision);
    var next := Next(d.revision).value;
    DigitsPlain(next);
    MimickedRemote(ReceiptOf(state, remote, r), next);
    text := Serialized(Recorded(d, key, state, remote, r, next));
    e := RecordReads(d, ReceiptKey(key), ReceiptOf(state, remote, r), MarkKey(key), MarkOf(state, remote, r), next);
  }

  lemma NextDigitsOf(revision: string)
    requires AllDigits(revision)
    ensures Next(revision).Some? && AllDigits(Next(revision).value)
  {}

  /**
   * A corrected block whose reason ends like the start of the stamp does not keep its part of a batch:
   * the first receipt that is written after it changes the key of the same selection.
   */
  lemma MimickedStampMovesBatch(b: Block, a: string, next: string)
    requires PlainText(a) && a != "" && !IsSpace(a[0]) && b.note == a + (" " + (Name(Revision) + ":"))
    requires Correction(b) && NoComma(Clean(b.auth)) && NoComma(b.lastActivity)
    ensures !KeepsBlock(b, next)
  {
    TrailingKeyMimics(a, Revision);
    MimicIsIllegible(b, next, Revision);
  }
}
