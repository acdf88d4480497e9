/** What each call of the host broker does, told in its own fields. */
module HostBridgeEffects {
  import opened Text
  import opened HostBridge

  // ---------------------------------------------------------------------- registration

  predicate Lacks(m: Metadata, key: string) { key !in m || m[key] == "" }

  lemma {:induction false} MissingFilters(m: Metadata, keys: seq<string>)
    ensures MissingIn(m, keys) == Filtered(keys, (k: string) => Lacks(m, k))
  {
    if keys != [] {
      MissingFilters(m, keys[1..]);
      FilteredCons(keys[0], keys[1..], (k: string) => Lacks(m, k));
      assert [keys[0]] + keys[1..] == keys;
    }
  }

  /** The required fields that are missing or empty, in order. */
  lemma MissingAre(m: Metadata, keys: seq<string>) returns (at: seq<nat>)
    ensures Picks(keys, MissingIn(m, keys), at)
    ensures forall i: nat | i < |keys| :: i in at <==> keys[i] !in m || m[keys[i]] == ""
  {
    MissingFilters(m, keys);
    at := FilteredAre(keys, (k: string) => Lacks(m, k));
  }

  predicate Complete(m: Metadata) { forall k | k in REQUIRED :: k in m && m[k] != "" }

  lemma MissingNone(m: Metadata)
    ensures MissingIn(m, REQUIRED) == [] <==> Complete(m)
  {
    var at := MissingAre(m, REQUIRED);
    if MissingIn(m, REQUIRED) == [] {
      forall k | k in REQUIRED ensures k in m && m[k] != "" {
        var i :| 0 <= i < |REQUIRED| && REQUIRED[i] == k;
        assert i !in at;
      }
    } else {
      assert at[0] in at;
      assert REQUIRED[at[0]] in REQUIRED;
    }
  }

  /** The session is exactly the required fields of `m`. */
  ghost predicate IsSessionOf(session: Metadata, m: Metadata) {
    (forall k :: k in session <==> k in REQUIRED) && forall k | k in session :: k in m && session[k] == m[k]
  }

  /**
   * A registration is accepted if and only if no required field is missing or empty and no other session is
   * there; then the session is exactly these fields. Otherwise nothing changes; requests never do.
   */
  lemma RegisterSays(b: Bridge, m: Metadata)
    ensures var (b', r) := DoRegister(b, m);
      && (r.Done? <==> Complete(m) && (b.session.None? || IsSessionOf(b.session.value, m)))
      && (r.Done? ==> b'.session.Some? && IsSessionOf(b'.session.value, m))
      && b'.queue == b.queue && b'.requests == b.requests && (!r.Done? ==> b' == b)
      && (r.MissingFields? <==> !Complete(m))
  {
    MissingNone(m);
    if Complete(m) && b.session.Some? {
      if IsSessionOf(b.session.value, m) { assert b.session.value == Clean(m); }
    }
  }

  // --------------------------------------------------------------------------- requests

  predicate OnlyChanges(b: Bridge, c: Bridge, id: Id) {
    c.requests.Keys == b.requests.Keys && forall i | i in b.requests && i != id :: c.requests[i] == b.requests[i]
  }

  /**
   * A detachment of the registered session forgets it, empties the queue and cancels what was queued or
   * claimed; events, chunks and every finished request stay. Any other changes nothing.
   */
  lemma DetachSays(b: Bridge, id: string)
    ensures var (b', r) := DoDetach(b, id);
      && (r.Done? <==> b.session.Some? && Get(b.session.value, "conversation_session_id") == id)
      && (!r.Done? ==> b' == b)
      && (r.Done? ==> b'.session == None && b'.queue == [] && b'.requests.Keys == b.requests.Keys)
      && (r.Done? ==> forall i | i in b.requests :: var before, after := b.requests[i], b'.requests[i];
            if before.state.Queued? || before.state.Claimed?
            then after == before.(state := Cancelled, error := "host session detached") else after == before)
  {}

  /** A submission to the registered session is queued last, as a request of its own that carries the event. */
  lemma SubmitSays(b: Bridge, id: Id, e: Event, expired: bool)
    requires id !in b.requests
    ensures var (b', r) := DoSubmit(b, id, e, expired);
      var open := b.session.Some? && Get(b.session.value, "conversation_session_id") == e.conversation;
      && (!open ==> b' == b && (r.Unavailable? || r.Mismatch?))
      && (open ==>
            && b'.session == b.session && b'.queue == b.queue + [id] && b'.requests.Keys == b.requests.Keys + {id}
            && (forall i | i in b.requests :: b'.requests[i] == b.requests[i])
            && b'.requests[id].event == e && b'.requests[id].chunks == []
            && (if expired then b'.requests[id].state == Failed && r == Raised("host did not complete the current turn")
                else b'.requests[id].state == Queued && r == Waiting))
  {}

  /** One return of the wait: the chunks of a completed request, the error of another, or a timeout of this one only. */
  lemma WakeSays(b: Bridge, id: Id, expired: bool)
    requires id in b.requests
    ensures var ((b', r), q) := (DoWake(b, id, expired), b.requests[id]);
      && b'.session == b.session && b'.queue == b.queue && OnlyChanges(b, b', id)
      && (q.state.Completed? ==> b' == b && r == Returned(q.chunks))
      && (q.state.Cancelled? || q.state.Failed? ==>
            b' == b && r == Raised(if q.error == "" then "host bridge failed" else q.error))
      && (q.state.Queued? || q.state.Claimed? ==>
            if expired then
              && b'.requests[id] == q.(state := Failed, error := "host did not complete the current turn")
              && r == Raised("host did not complete the current turn")
            else b' == b && r == Waiting)
  {}

  /** A poll takes the head of the queue, claims it, and hands out its id with the event of that request. */
  lemma PollSays(b: Bridge, expired: bool)
    requires forall i | i in b.queue :: i in b.requests
    ensures var (b', r) := DoPoll(b, expired);
      && b'.session == b.session
      && (b.queue == [] ==> b' == b && (if b.session.None? then r == Unavailable else if expired then r == Nothing else r == Waiting))
      && (b.queue != [] ==> var id := b.queue[0];
            && r == Handed(id, b.requests[id].event) && b'.queue == b.queue[1..] && OnlyChanges(b, b', id)
            && b'.requests[id] == b.requests[id].(state := Claimed))
  {
    if b.queue != [] { assert b.queue[0] in b.queue; }
  }

  /** A completion of a claimed request stores its non-empty chunks, in order; any other changes nothing. */
  lemma CompleteSays(b: Bridge, id: Id, chunks: seq<string>) returns (at: seq<nat>)
    ensures var (b', r) := DoComplete(b, id, chunks);
      && b'.session == b.session && b'.queue == b.queue
      && (r.Done? <==> id in b.requests && b.requests[id].state.Claimed?)
      && (!r.Done? ==> b' == b)
      && (r.Done? ==>
            && OnlyChanges(b, b', id) && b'.requests[id].state == Completed && b'.requests[id].event == b.requests[id].event
            && Picks(chunks, b'.requests[id].chunks, at))
    ensures forall i: nat | i < |chunks| :: i in at <==> chunks[i] != ""
  {
    at := NonEmptyAre(chunks);
  }
}
