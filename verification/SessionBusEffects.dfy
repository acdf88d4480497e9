/** What each call of the session bus decides and changes, told in its own fields. */
module SessionBusEffects {
  import opened Text
  import opened SessionBus

  // ------------------------------------------------------------------------------ the log

  predicate HasKey(e: Event, key: string) { "idempotency_key" in e.metadata && e.metadata["idempotency_key"] == key }

  predicate NamesInput(e: Event, id: string) {
    (if "input_event_id" in e.metadata then e.metadata["input_event_id"] else "") == id
  }

  /**
   * An event is appended if and only if its id is new, its key, if it has one, is new, and its sequence
   * follows that of a last event of its session.
   */
  lemma VerdictSays(es: seq<Event>, e: Event)
    ensures Verdict(es, e).Appended? <==>
      && (forall x | x in es :: x.id != e.id)
      && (forall x, key | x in es && key != "" && HasKey(x, key) :: !HasKey(e, key))
      && (es != [] && es[|es| - 1].session == e.session ==> e.sequence == es[|es| - 1].sequence + 1)
    ensures Verdict(es, e).Appended? ==> Verdict(es, e).event == e
  {
    if e.id in IdsOf(es) {
      var x :| x in es && x.id == e.id;
    }
    if Key(e) != "" && Key(e) in KeysOf(es) {
      var x :| x in es && Key(x) == Key(e);
      assert HasKey(x, Key(e)) && HasKey(e, Key(e));
    }
    if x, key :| x in es && key != "" && HasKey(x, key) && HasKey(e, key) {
      assert Key(x) in KeysOf(es);
    }
    if x :| x in es && x.id == e.id {
      assert x.id in IdsOf(es);
    }
  }

  lemma {:induction false} NamingFilters(es: seq<Event>, session: string, id: string)
    ensures Naming(es, session, id) == Filtered(es, (e: Event) => e.session == session && NamesInput(e, id))
    decreases |es|
  {
    if es != [] { NamingFilters(es[..|es| - 1], session, id); }
  }

  /** The events of a session that name an input, all of them and in order. */
  lemma NamingAre(es: seq<Event>, session: string, id: string) returns (at: seq<nat>)
    ensures Picks(es, Naming(es, session, id), at)
    ensures forall i: nat | i < |es| :: i in at <==> es[i].session == session && NamesInput(es[i], id)
  {
    NamingFilters(es, session, id);
    at := FilteredAre(es, (e: Event) => e.session == session && NamesInput(e, id));
  }

  /** The first event with a key, if there is one. */
  lemma {:induction false} FindIsFirst(es: seq<Event>, key: string) returns (k: nat)
    requires key != ""
    ensures var found := Find(es, key);
      if found.None? then forall e | e in es :: !HasKey(e, key)
      else k < |es| && found.value == es[k] && HasKey(es[k], key) && forall i | 0 <= i < k :: !HasKey(es[i], key)
    decreases |es|
  {
    k := 0;
    if es != [] {
      var init, last := es[..|es| - 1], es[|es| - 1];
      k := FindIsFirst(init, key);
      assert es == init + [last];
      if Find(init, key).None? {
        k := |init|;
        assert forall i | 0 <= i < |init| :: es[i] in init;
      }
    }
  }

  /** The next sequence is one more than the largest, and 1 when there is none. */
  lemma {:induction false} MaxIsLargest(es: seq<Event>)
    requires es != []
    ensures (forall e | e in es :: e.sequence <= MaxSequence(es)) && exists e :: e in es && e.sequence == MaxSequence(es)
    decreases |es|
  {
    var init, last := es[..|es| - 1], es[|es| - 1];
    assert es == init + [last] && last in es;
    if init != [] {
      MaxIsLargest(init);
      var e :| e in init && e.sequence == MaxSequence(init);
      assert e in es;
    }
  }

  // ---------------------------------------------------------------------------- the calls

  /** A submission that repeats a key gives the first event with it and all events of the session that name that one. */
  lemma ReplaySays(b: Bus, id: string, q: Request, now: int) returns (k: nat, at: seq<nat>)
    requires DoSubmit(b, id, q, now).1.Replayed? && Strip(q.text) != ""
    ensures var (b', r) := DoSubmit(b, id, q, now);
      && b' == b && "idempotency_key" in q.metadata && r.events != []
      && k < |b.events| && r.events[0] == b.events[k] && HasKey(b.events[k], q.metadata["idempotency_key"])
      && (forall i | 0 <= i < k :: !HasKey(b.events[i], q.metadata["idempotency_key"]))
      && Picks(b.events, r.events[1..], at)
      && forall i: nat | i < |b.events| ::
           i in at <==> b.events[i].session == q.session && NamesInput(b.events[i], b.events[k].id)
  {
    var key := RequestKey(q);
    var existing := if key == "" then None else Find(b.events, key);
    ReplayShape(b, id, q, now, existing);
    k := FindIsFirst(b.events, key);
    at := NamingAre(b.events, q.session, existing.value.id);
  }

  lemma ReplayShape(b: Bus, id: string, q: Request, now: int, existing: Option<Event>)
    requires DoSubmit(b, id, q, now).1.Replayed? && Strip(q.text) != ""
    requires existing == if RequestKey(q) == "" then None else Find(b.events, RequestKey(q))
    ensures existing.Some? && DoSubmit(b, id, q, now).0 == b
    ensures DoSubmit(b, id, q, now).1.events == [existing.value] + Naming(b.events, q.session, existing.value.id)
  {}

  /** The session is there and the caller's, its voice lease is the caller's and has not run out, and it has an adapter. */
  predicate MaySubmit(b: Bus, q: Request, now: int) {
    && b.session.Some? && b.session.value.id == q.session && b.adapter
    && b.session.value.lease.Some? && b.session.value.lease.value.nonce == q.nonce
    && now < b.session.value.lease.value.expires
  }

  /** Who is served: a text of a known modality, with a live lease; a blank one gets nothing. */
  lemma ServedIff(b: Bus, id: string, q: Request, now: int)
    requires q.modality == "text" || q.modality == "voice"
    ensures var r := DoSubmit(b, id, q, now).1;
      && (Strip(q.text) == "" ==> r == Replayed([]))
      && (Strip(q.text) != "" ==>
            (r.Appended? || r.Replayed? || r.Duplicate? || r.Conflict? <==> MaySubmit(b, q, now)))
  {}

  /** A registration is refused for another session or another identity; otherwise the session is there, with its adapter. */
  lemma RegisterSays(b: Bus, id: string, who: Identity, adapter: bool)
    ensures var (b', r) := DoRegister(b, id, who, adapter);
      && (r.Done? <==> b.session.None? || (b.session.value.id == id && b.session.value.who == who))
      && (!r.Done? ==> b' == b) && b'.events == b.events
      && (r.Done? ==> (b'.adapter <==> b.adapter || adapter) && b'.session.Some?)
      && (r.Done? && b.session.Some? ==> b'.session == b.session)
      && (r.Done? && b.session.None? ==> var s := b'.session.value;
            && s.id == id && s.who == who && s.status == "detached" && !s.voice && s.lease.None?
            && s.next == NextSequence(OfSession(b.events, id)))
  {}

  /** Attaching gives the caller the live lease it holds, or a new one; another's live lease is not taken. */
  lemma AttachSays(b: Bus, id: string, owner: string, now: int, nonce: string, expires: int)
    ensures var (b', r) := DoAttach(b, id, owner, now, nonce, expires);
      var live := b.session.Some? && b.session.value.lease.Some? && now < b.session.value.lease.value.expires;
      && (r.Done? <==>
            && b.session.Some? && b.session.value.id == id && b.session.value.status != "closed"
            && (live ==> b.session.value.lease.value.owner == owner))
      && (!r.Done? ==> b' == b) && b'.events == b.events && b'.adapter == b.adapter
      && (r.Done? ==> b'.session.Some? && var (s, s') := (b.session.value, b'.session.value);
            && s'.id == s.id && s'.who == s.who && s'.next == s.next && s'.status == "attached" && s'.voice
            && s'.lease == if live then s.lease else Some(Lease(nonce, owner, expires)))
  {}

  /** Detaching takes the lease away from whoever knows its nonce, or names none. */
  lemma DetachSays(b: Bus, id: string, nonce: string)
    ensures var (b', r) := DoDetach(b, id, nonce);
      && (r.Done? <==>
            && b.session.Some? && b.session.value.id == id
            && (b.session.value.lease.None? || nonce == "" || b.session.value.lease.value.nonce == nonce))
      && (!r.Done? ==> b' == b) && b'.events == b.events && b'.adapter == b.adapter
      && (r.Done? ==> b'.session.Some? && var (s, s') := (b.session.value, b'.session.value);
            && s'.id == s.id && s'.who == s.who && s'.next == s.next && s'.status == "detached" && !s'.voice
            && s'.lease.None?)
  {}
}
