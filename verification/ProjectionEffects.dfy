/** What a `project` call records and dispatches, told in its fields, and in which order. */
module ProjectionEffects {
  import opened Text
  import opened TimelogModel
  import opened TimelogText
  import opened TimelogRoundTrip
  import opened TimelogStore
  import opened TimelogSafe
  import opened TimelogEffects
  import opened Projection
  import opened ProjectionRuns

  // ------------------------------------------------------------------------ the record

  /** A receipt and its mark say the same of the batch; pending before the remote is known to have it or not. */
  lemma RecordingSays(key: string, state: string, remote: string, r: Record)
    ensures var m := Recording(key, state, remote, r);
      var status := if state == "prepared" || state == "sent" then "pending" else "settled";
      && m.RecordReceipt? && m.key == "proj_" + key && m.markKey == "prj_" + key
      && m.receipt == Receipt("timelog.project", status, r.destination, state, remote)
      && m.mark.operation == "timelog.project" && m.mark.status == status && m.mark.destination == r.destination
      && m.mark.state == state && m.mark.remote == remote && m.mark.blocks == r.mark.blocks
      && m.mark.start == r.mark.start && m.mark.end == r.mark.end && m.mark.minutes == r.mark.minutes
      && m.mark.agent == r.mark.agent && m.mark.projectedAt == r.mark.projectedAt
  {}

  /** The timelog is fit, of the session, and the write goes through. */
  ghost predicate Writable(w: World, session: string, d: Document, r: Record) {
    Reads(w.file, d) && Good(d) && (d.ses == "" || d.ses == session) && !r.fails && SafeRecord(r)
  }

  /** After a write of a receipt it is read as it was given, but for the cleaning, and every other one as it was. */
  lemma ReceiptIsRead(file: File, d: Document, ses: string, k: string, receipt: Receipt, markKey: string, mark: Mark)
    returns (e: Document)
    requires Reads(file, d) && Good(d) && (d.ses == "" || d.ses == ses)
    requires Harmless(RecordReceipt(k, receipt, markKey, mark))
    ensures var m := RecordReceipt(k, receipt, markKey, mark);
      Reads(DoUpdate(file, ses, None, m, false).0, e) && Good(e) && e.ses == d.ses && e.blocks.Keys == d.blocks.Keys
    ensures k in e.receipts && e.receipts[k] == NormalReceipt(receipt)
    ensures forall j | j in d.receipts && j != k :: j in e.receipts && e.receipts[j] == NormalReceipt(d.receipts[j])
  {
    var m := RecordReceipt(k, receipt, markKey, mark);
    GoodIsNumbered(d);
    AfterRecord(d, k, receipt, markKey, mark, m);
    e := AppliedIsRead(file, d, ses, m);
  }

  lemma AfterRecord(d: Document, k: string, receipt: Receipt, markKey: string, mark: Mark, m: Mutation)
    requires IsNumber(d.revision) && m == RecordReceipt(k, receipt, markKey, mark)
    ensures Writes(d, m) && After(d, m).ses == d.ses && After(d, m).blocks.Keys == d.blocks.Keys
    ensures k in After(d, m).receipts && After(d, m).receipts[k] == NormalReceipt(receipt)
    ensures forall j | j in d.receipts && j != k ::
      j in After(d, m).receipts && After(d, m).receipts[j] == NormalReceipt(d.receipts[j])
  {}

  /** An admitted call that changes the document is applied, and the next call reads what it meant to write. */
  lemma AppliedIsRead(file: File, d: Document, ses: string, m: Mutation) returns (e: Document)
    requires Reads(file, d) && Good(d) && (d.ses == "" || d.ses == ses) && Harmless(m) && Writes(d, m)
    ensures e == After(d, m) && Reads(DoUpdate(file, ses, None, m, false).0, e) && Good(e)
  {
    UpdateReads(file, d, ses, None, m, false);
    MutateKeepsRevision(d, m);
    AdmittedCall(file, d, ses, None, m, false);
    AnswerApplied(d, Mutate(d, m));
    e := After(d, m);
  }

  lemma AnswerApplied(d: Document, o: Outcome)
    requires o.Changed? && Next(o.document.revision).Some?
    ensures Answer(d, o, false).Applied?
  {}

  lemma ReceiptOfNormal(state: string, remote: string, r: Record)
    requires state != "" && Clean(remote) == remote
    ensures NormalReceipt(ReceiptOf(state, remote, r)).state == state
    ensures NormalReceipt(ReceiptOf(state, remote, r)).remote == remote
  {}

  /** After a record the receipt of the batch is read with that state and remote, and every other one as it was. */
  lemma RecordIsRead(w: World, session: string, d: Document, key: string, state: string, remote: string, r: Record)
    returns (e: Document)
    requires Writable(w, session, d, r) && Harmless(Recording(key, state, remote, r))
    requires state != "" && Clean(remote) == remote
    ensures var w' := DoRecord(w, session, key, state, remote, r);
      && w'.sent == w.sent && w'.calls == w.calls && Reads(w'.file, e) && Good(e) && e.ses == d.ses
      && ReceiptKey(key) in e.receipts && e.receipts[ReceiptKey(key)].state == state
      && e.receipts[ReceiptKey(key)].remote == remote && e.blocks.Keys == d.blocks.Keys
      && forall k | k in d.receipts && k != ReceiptKey(key) ::
           k in e.receipts && e.receipts[k] == NormalReceipt(d.receipts[k])
  {
    e := ReceiptIsRead(
      w.file, d, session, ReceiptKey(key), ReceiptOf(state, remote, r), MarkKey(key), MarkOf(state, remote, r));
    ReceiptOfNormal(state, remote, r);
  }

  lemma GoodIsNumbered(d: Document)
    requires Good(d)
    ensures IsNumber(d.revision)
  {}

  // -------------------------------------------------------------------------- the calls

  /** The receipt of the batch is read with that state and remote. */
  predicate Shows(w: World, key: string, state: string, remote: string) {
    ReceiptIn(w, key).Some? && ReceiptIn(w, key).value.state == state && ReceiptIn(w, key).value.remote == remote
  }

  lemma ShowsRead(w: World, e: Document, key: string, state: string, remote: string)
    requires Reads(w.file, e) && ReceiptKey(key) in e.receipts
    requires e.receipts[ReceiptKey(key)].state == state && e.receipts[ReceiptKey(key)].remote == remote
    ensures Shows(w, key, state, remote)
  {}

  lemma RecordShows(w: World, session: string, d: Document, key: string, state: string, remote: string, r: Record)
    returns (e: Document)
    requires Writable(w, session, d, r) && IsBatchKey(key) && state != "" && Word(state)
    requires Word(remote) && Clean(remote) == remote
    ensures var w' := DoRecord(w, session, key, state, remote, r);
      && w'.sent == w.sent && w'.calls == w.calls && Writable(w', session, e, r) && Shows(w', key, state, remote)
  {
    RecordHarmless(key, state, remote, r);
    e := RecordIsRead(w, session, d, key, state, remote, r);
    var w' := DoRecord(w, session, key, state, remote, r);
    ShowsRead(w', e, key, state, remote);
  }

  /** A send of a batch whose receipt reads confirmed ends at once: nothing is written and nothing dispatched. */
  lemma ConfirmedSendsNothing(w: World, session: string, call: nat, key: string, r: Record, failSend: bool)
    requires call in w.calls && w.calls[call] == Checking(key)
    requires ReceiptIn(w, key).Some? && ReceiptIn(w, key).value.state == "confirmed"
    ensures var w' := Advanced(w, session, call, r, failSend);
      w'.file == w.file && w'.sent == w.sent && w'.calls == w.calls - {call}
  {}

  ghost predicate Goes(w: World, session: string, call: nat, r: Record, failSend: bool, w': World) {
    call in w.calls && w' == Advanced(w, session, call, r, failSend)
  }

  /** Any other send goes on, and has changed nothing yet. */
  lemma UnconfirmedGoesOn(w: World, session: string, call: nat, key: string, r: Record, failSend: bool)
    returns (w': World)
    requires call in w.calls && w.calls[call] == Checking(key)
    requires ReceiptIn(w, key).None? || ReceiptIn(w, key).value.state != "confirmed"
    ensures Goes(w, session, call, r, failSend, w') && w' == w.(calls := w.calls[call := Intending(key)])
  {
    w' := Advanced(w, session, call, r, failSend);
  }

  /** The intent is written before the adapter is touched. */
  lemma IntentIsWritten(w: World, session: string, d: Document, call: nat, key: string, r: Record, failSend: bool)
    returns (w': World, e: Document)
    requires Writable(w, session, d, r) && IsBatchKey(key) && call in w.calls && w.calls[call] == Intending(key)
    ensures Goes(w, session, call, r, failSend, w') && w'.sent == w.sent && w'.calls == w.calls[call := Dispatching(key)]
    ensures Writable(w', session, e, r) && Shows(w', key, "sent", "")
  {
    StatesAreWords("sent");
    CleanEmpty();
    e := RecordShows(w, session, d, key, "sent", "", r);
    w' := Advanced(w, session, call, r, failSend);
  }

  /** The adapter holds the batch, and what it held before. */
  ghost predicate Gains(before: Sent, after: Sent, key: string) {
    after.Keys == before.Keys + {key} && forall k | k in before :: after[k] == before[k]
  }

  lemma SendGains(sent: Sent, key: string)
    ensures Gains(sent, DoSend(sent, key), key)
  {}

  /** A dispatch adds at most the batch's own entry; the answer names the entry the adapter holds. */
  lemma DispatchSays(w: World, session: string, call: nat, key: string, r: Record, failSend: bool) returns (w': World)
    requires call in w.calls && w.calls[call] == Dispatching(key)
    ensures Goes(w, session, call, r, failSend, w') && w'.file == w.file
    ensures if failSend then w'.sent == w.sent && w'.calls == w.calls[call := Failed(key)]
      else Gains(w.sent, w'.sent, key) && w'.calls == w.calls[call := Dispatched(key, RemoteName(w'.sent[key]))]
  {
    SendGains(w.sent, key);
    w' := Advanced(w, session, call, r, failSend);
  }

  /** The answer is written as confirmed. */
  lemma AnswerIsWritten(w: World, session: string, d: Document, call: nat, key: string, n: nat, r: Record, failSend: bool)
    returns (w': World, e: Document)
    requires Writable(w, session, d, r) && IsBatchKey(key) && call in w.calls
    requires w.calls[call] == Dispatched(key, RemoteName(n))
    ensures Goes(w, session, call, r, failSend, w') && w'.sent == w.sent && w'.calls == w.calls - {call}
    ensures Writable(w', session, e, r) && Shows(w', key, "confirmed", RemoteName(n))
  {
    StatesAreWords("confirmed");
    RemoteIsWord(n);
    e := RecordShows(w, session, d, key, "confirmed", RemoteName(n), r);
    w' := Advanced(w, session, call, r, failSend);
  }

  /** A failed dispatch is written as unknown. */
  lemma FailureIsWritten(w: World, session: string, d: Document, call: nat, key: string, r: Record, failSend: bool)
    returns (w': World, e: Document)
    requires Writable(w, session, d, r) && IsBatchKey(key) && call in w.calls && w.calls[call] == Failed(key)
    ensures Goes(w, session, call, r, failSend, w') && w'.sent == w.sent && w'.calls == w.calls - {call}
    ensures Writable(w', session, e, r) && Shows(w', key, "unknown", "")
  {
    StatesAreWords("unknown");
    CleanEmpty();
    e := RecordShows(w, session, d, key, "unknown", "", r);
    w' := Advanced(w, session, call, r, failSend);
  }

  /** A preparation writes the batch as prepared, and dispatches nothing. */
  lemma PreparedIsWritten(w: World, session: string, d: Document, call: nat, key: string, r: Record)
    returns (w': World, e: Document)
    requires Writable(w, session, d, r) && IsBatchKey(key) && call in w.calls && w.calls[call] == Preparing(key)
    ensures Goes(w, session, call, r, false, w') && w'.sent == w.sent && w'.calls == w.calls - {call}
    ensures Writable(w', session, e, r) && Shows(w', key, "prepared", "")
  {
    StatesAreWords("prepared");
    CleanEmpty();
    e := RecordShows(w, session, d, key, "prepared", "", r);
    w' := Advanced(w, session, call, r, false);
  }

  /** A reconciliation asks the adapter, which answers with its entry of the batch or with none. */
  lemma QuerySays(w: World, session: string, call: nat, key: string, r: Record)
    requires call in w.calls && w.calls[call] == Querying(key)
    ensures var found := if key in w.sent then Some(RemoteName(w.sent[key])) else None;
      Advanced(w, session, call, r, false) == w.(calls := w.calls[call := Queried(key, found)])
  {}

  /** No entry is written as unknown. */
  lemma UnknownIsWritten(w: World, session: string, d: Document, call: nat, key: string, r: Record)
    returns (w': World, e: Document)
    requires Writable(w, session, d, r) && IsBatchKey(key) && call in w.calls && w.calls[call] == Queried(key, None)
    ensures Goes(w, session, call, r, false, w') && w'.sent == w.sent && w'.calls == w.calls - {call}
    ensures Writable(w', session, e, r) && Shows(w', key, "unknown", "")
  {
    StatesAreWords("unknown");
    CleanEmpty();
    e := RecordShows(w, session, d, key, "unknown", "", r);
    w' := Advanced(w, session, call, r, false);
  }

  /** An entry is written as confirmed, with its name. */
  lemma FoundIsWritten(w: World, session: string, d: Document, call: nat, key: string, n: nat, r: Record)
    returns (w': World, e: Document)
    requires Writable(w, session, d, r) && IsBatchKey(key) && call in w.calls
    requires w.calls[call] == Queried(key, Some(RemoteName(n)))
    ensures Goes(w, session, call, r, false, w') && w'.sent == w.sent && w'.calls == w.calls - {call}
    ensures Writable(w', session, e, r) && Shows(w', key, "confirmed", RemoteName(n))
  {
    StatesAreWords("confirmed");
    RemoteIsWord(n);
    e := RecordShows(w, session, d, key, "confirmed", RemoteName(n), r);
    w' := Advanced(w, session, call, r, false);
  }

  // ------------------------------------------------------------------------------ runs

  /** The adapter gets a key only from a call that was about to dispatch it. */
  lemma SentFromDispatch(w: World, session: string, a: Action, key: string)
    requires Enabled(w, session, a) && key !in w.sent && key in Step(w, session, a).sent
    ensures (a.Advance? || a.Lost?) && w.calls[a.call] == Dispatching(key)
  {
    if a.Advance? {
      AdvancedSent(w, session, a.call, a.record, a.failSend);
      if !w.calls[a.call].Dispatching? { NotSent(w, session, a.call, a.record, a.failSend); }
    }
  }

  lemma NotSent(w: World, session: string, call: nat, r: Record, failSend: bool)
    requires call in w.calls && !w.calls[call].Dispatching?
    ensures Advanced(w, session, call, r, failSend).sent == w.sent
  {}

  /** A call is about to dispatch only after it wrote its intent. */
  ghost predicate Intends(ws: seq<World>, session: string, acts: seq<Action>, j: nat, call: nat, key: string)
    requires |ws| == |acts| + 1 && j < |acts|
  {
    && acts[j].Advance? && acts[j].call == call && call in ws[j].calls && ws[j].calls[call] == Intending(key)
    && var r := acts[j].record;
       ws[j + 1].file == DoUpdate(ws[j].file, session, None, Recording(key, "sent", "", r), r.fails).0
  }

  lemma AdvanceToDispatch(w: World, session: string, call: nat, r: Record, failSend: bool, key: string, w': World)
    requires call in w.calls && w' == Advanced(w, session, call, r, failSend)
    requires call in w'.calls && w'.calls[call] == Dispatching(key)
    ensures w.calls[call] == Intending(key) && w'.file == DoRecord(w, session, key, "sent", "", r).file
  {}

  /** A step leaves every other call where it stands. */
  lemma OthersStand(w: World, session: string, a: Action, call: nat, w': World)
    requires Enabled(w, session, a) && w' == Step(w, session, a) && !(a.Advance? && a.call == call)
    requires call in w'.calls && w'.calls[call].Dispatching?
    ensures call in w.calls && w.calls[call] == w'.calls[call]
  {
    if a.Advance? {
      AdvanceMovesOne(w, session, a.call, a.record, a.failSend, call);
    }
  }

  lemma AdvanceMovesOne(w: World, session: string, call: nat, r: Record, failSend: bool, other: nat)
    requires call in w.calls && other != call
    ensures var calls := Advanced(w, session, call, r, failSend).calls;
      (other in calls <==> other in w.calls) && (other in calls ==> calls[other] == w.calls[other])
  {}

  lemma StepToDispatch(w: World, session: string, a: Action, call: nat, key: string, w': World)
    requires Enabled(w, session, a) && w' == Step(w, session, a)
    requires call in w'.calls && w'.calls[call] == Dispatching(key)
    requires !(call in w.calls && w.calls[call] == Dispatching(key))
    ensures a.Advance? && a.call == call && call in w.calls && w.calls[call] == Intending(key)
    ensures w'.file == DoRecord(w, session, key, "sent", "", a.record).file
  {
    if a.Advance? && a.call == call {
      AdvanceToDispatch(w, session, call, a.record, a.failSend, key, w');
    } else {
      OthersStand(w, session, a, call, w');
    }
  }

  /** In every run, what the adapter holds was announced: the call that dispatched it had written its intent before. */
  lemma {:induction false} IntentFirst(ws: seq<World>, session: string, acts: seq<Action>, k: nat, call: nat, key: string)
    returns (j: nat)
    requires IsRun(ws, session, acts) && ws[0].calls == map[] && k < |ws|
    requires call in ws[k].calls && ws[k].calls[call] == Dispatching(key)
    ensures j < k && Intends(ws, session, acts, j, call, key)
  {
    assert StepsAt(ws, session, acts, k - 1);
    if call in ws[k - 1].calls && ws[k - 1].calls[call] == Dispatching(key) {
      j := IntentFirst(ws, session, acts, k - 1, call, key);
    } else {
      StepToDispatch(ws[k - 1], session, acts[k - 1], call, key, ws[k]);
      j := k - 1;
    }
  }
}
