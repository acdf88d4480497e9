/** `session_bus.py`: the ordered event log, idempotent turns and the voice lease. */
module SessionBus {
  import opened Text

  datatype Direction = Input | Output

  type Metadata = map<string, string>

  datatype Event = Event(
    id: string, session: string, turn: string, sequence: int, direction: Direction,
    modality: string, origin: string, text: string, metadata: Metadata)

  datatype Lease = Lease(nonce: string, owner: string, expires: int)

  datatype Identity = Identity(parent: string, agent: string, project: string, scope: string, blp: Option<string>)

  datatype Session = Session(id: string, who: Identity, status: string, next: int, voice: bool, lease: Option<Lease>)

  /** What the bus and its log hold; the log outlives the bus. */
  datatype Bus = Bus(events: seq<Event>, session: Option<Session>, adapter: bool)

  datatype Reply =
    | Done
    | Appended(event: Event)
    | Replayed(events: seq<Event>)
    | Duplicate(what: string)
    | Conflict(expected: int, got: int)
    | NoActiveSession
    | Mismatch
    | LeaseExpired
    | BridgeUnavailable
    | BadModality

  // ----------------------------------------------------------------------- the log

  function Key(e: Event): string { Get(e.metadata, "idempotency_key") }

  function Names(e: Event): string { Get(e.metadata, "input_event_id") }

  function IdsOf(es: seq<Event>): set<string> { set e | e in es :: e.id }

  function KeysOf(es: seq<Event>): set<string> { set e | e in es && Key(e) != "" :: Key(e) }

  /** What `append` says of an event. */
  function Verdict(es: seq<Event>, e: Event): Reply {
    if e.id in IdsOf(es) then Duplicate(e.id)
    else if Key(e) != "" && Key(e) in KeysOf(es) then Duplicate(Key(e))
    else if es != [] && e.session == es[|es| - 1].session && e.sequence != es[|es| - 1].sequence + 1 then
      Conflict(es[|es| - 1].sequence + 1, e.sequence)
    else Appended(e)
  }

  function OfSession(es: seq<Event>, session: string): seq<Event> {
    if es == [] then []
    else
      var last := es[|es| - 1];
      OfSession(es[..|es| - 1], session) + (if last.session == session then [last] else [])
  }

  /** The events of a session that name an input event as their cause. */
  function Naming(es: seq<Event>, session: string, id: string): seq<Event> {
    if es == [] then []
    else
      var last := es[|es| - 1];
      Naming(es[..|es| - 1], session, id)
      + (if last.session == session && Names(last) == id then [last] else [])
  }

  /** The first event that carries an idempotency key. */
  function Find(es: seq<Event>, key: string): Option<Event> {
    if es == [] then None
    else
      var before := Find(es[..|es| - 1], key);
      if before.Some? then before
      else if Key(es[|es| - 1]) == key then Some(es[|es| - 1]) else None
  }

  function MaxSequence(es: seq<Event>): int
    requires es != []
  {
    var last := es[|es| - 1].sequence;
    if |es| == 1 then last
    else
      var most := MaxSequence(es[..|es| - 1]);
      if most < last then last else most
  }

  // ----------------------------------------------------- each locked body, as a function

  /** `_require_session`. */
  function SessionCheck(b: Bus, id: Option<string>): Reply {
    if b.session.None? then NoActiveSession
    else if id.Some? && b.session.value.id != id.value then Mismatch
    else Done
  }

  /** `_append_event`. */
  function Append(b: Bus, e: Event): (Bus, Reply)
    requires b.session.Some?
  {
    if Verdict(b.events, e).Appended? then
      (b.(events := b.events + [e], session := Some(b.session.value.(next := b.session.value.next + 1))), Appended(e))
    else (b, Verdict(b.events, e))
  }

  function NextSequence(es: seq<Event>): int { if es == [] then 1 else MaxSequence(es) + 1 }

  function DoRegister(b: Bus, id: string, who: Identity, adapter: bool): (Bus, Reply) {
    if b.session.Some? && b.session.value.id != id then (b, Mismatch)
    else if b.session.Some? && b.session.value.who != who then (b, Mismatch)
    else
      var created := Session(id, who, "detached", NextSequence(OfSession(b.events, id)), false, None);
      (b.(session := if b.session.None? then Some(created) else b.session, adapter := b.adapter || adapter), Done)
  }

  function DoRegisterAdapter(b: Bus): (Bus, Reply) {
    if b.session.None? then (b, NoActiveSession) else (b.(adapter := true), Done)
  }

  predicate Live(lease: Option<Lease>, now: int) { lease.Some? && now < lease.value.expires }

  /** `nonce` and `expires` are those of the lease created when none is live. */
  function DoAttach(b: Bus, id: string, owner: string, now: int, nonce: string, expires: int): (Bus, Reply) {
    var check := SessionCheck(b, Some(id));
    if check != Done then (b, check)
    else
      var s := b.session.value;
      if s.status == "closed" || (Live(s.lease, now) && s.lease.value.owner != owner) then (b, Mismatch)
      else
        var lease := if Live(s.lease, now) then s.lease else Some(Lease(nonce, owner, expires));
        (b.(session := Some(s.(lease := lease, status := "attached", voice := true))), Done)
  }

  function DoDetach(b: Bus, id: string, nonce: string): (Bus, Reply) {
    var check := SessionCheck(b, Some(id));
    if check != Done then (b, check)
    else
      var s := b.session.value;
      if s.lease.Some? && nonce != "" && s.lease.value.nonce != nonce then (b, Mismatch)
      else (b.(session := Some(s.(lease := None, voice := false, status := "detached"))), Done)
  }

  datatype Publication = Publication(text: string, turn: string, modality: string, metadata: Metadata)

  predicate KnownModality(m: string) { m == "text" || m == "voice" }

  function OutputEvent(s: Session, id: string, p: Publication): Event {
    Event(id, s.id, p.turn, s.next, Output, if KnownModality(p.modality) then p.modality else "voice",
          s.who.agent, p.text, p.metadata)
  }

  function DoPublish(b: Bus, id: string, p: Publication): (Bus, Reply) {
    if b.session.None? then (b, NoActiveSession) else Append(b, OutputEvent(b.session.value, id, p))
  }

  function Cancellation(turn: string, reason: string): Publication {
    Publication("", turn, "voice", map["projection" := "voice", "status" := "cancelled", "reason" := reason])
  }

  datatype Request = Request(
    text: string, modality: string, origin: string, session: string, nonce: string, turn: string, metadata: Metadata)

  function InputEvent(s: Session, id: string, q: Request): Event {
    Event(id, s.id, q.turn, s.next, Input, q.modality, q.origin, q.text, q.metadata)
  }

  function RequestKey(q: Request): string { Get(q.metadata, "idempotency_key") }

  /** `submit_input` up to the adapter call: an `Appended` reply is the input to hand over. */
  function DoSubmit(b: Bus, id: string, q: Request, now: int): (Bus, Reply) {
    if !KnownModality(q.modality) then (b, BadModality)
    else if Strip(q.text) == "" then (b, Replayed([]))
    else if SessionCheck(b, Some(q.session)) != Done then (b, SessionCheck(b, Some(q.session)))
    else
      var s := b.session.value;
      if s.lease.None? || s.lease.value.nonce != q.nonce || !Live(s.lease, now) then (b, LeaseExpired)
      else if !b.adapter then (b, BridgeUnavailable)
      else
        var existing := if RequestKey(q) == "" then None else Find(b.events, RequestKey(q));
        if existing.Some? then
          (b, Replayed([existing.value] + Naming(b.events, q.session, existing.value.id)))
        else Append(b, InputEvent(s, id, q))
  }

  /** How a turn publishes one non-empty chunk of the answer to `input`. */
  function Answer(input: Event, chunk: string): Publication {
    Publication(chunk, input.turn, input.modality, map["input_event_id" := input.id])
  }

  /** The rest of a turn with nobody else publishing: its outputs, or the refusal that ended it. */
  function Stream(b: Bus, input: Event, chunks: seq<string>, ids: seq<string>): (Bus, Reply)
    requires |chunks| == |ids|
    decreases |chunks|
  {
    if chunks == [] then (b, Done)
    else if chunks[0] == "" then Stream(b, input, chunks[1..], ids[1..])
    else
      var (b', r) := DoPublish(b, ids[0], Answer(input, chunks[0]));
      if r.Appended? then Stream(b', input, chunks[1..], ids[1..]) else (b', r)
  }

  // --------------------------------------------------------------- what the events say

  /** An accepted input is one more event, and says what was submitted, to the session it was submitted to. */
  lemma SubmitSays(b: Bus, id: string, q: Request, now: int)
    requires DoSubmit(b, id, q, now).1.Appended?
    ensures var (b', r) := DoSubmit(b, id, q, now);
      && b'.events == b.events + [r.event] && b.session.Some? && r.event.session == q.session == b.session.value.id
      && r.event.id == id && r.event.direction.Input? && r.event.sequence == b.session.value.next
      && r.event.text == q.text && r.event.origin == q.origin && r.event.turn == q.turn
      && r.event.modality == q.modality && (q.modality == "text" || q.modality == "voice") && r.event.metadata == q.metadata
  {}

  /** A submission that is not accepted changes nothing. */
  lemma SubmitKeepsElse(b: Bus, id: string, q: Request, now: int)
    requires !DoSubmit(b, id, q, now).1.Appended?
    ensures DoSubmit(b, id, q, now).0 == b
  {}

  /** A publication is one more event of the session, by its agent, and says what was published; or nothing changes. */
  lemma PublishSays(b: Bus, id: string, p: Publication)
    ensures var (b', r) := DoPublish(b, id, p);
      && (!r.Appended? ==> b' == b)
      && (r.Appended? ==>
            && b'.events == b.events + [r.event] && b.session.Some? && r.event.session == b.session.value.id
            && r.event.id == id && r.event.direction.Output? && r.event.sequence == b.session.value.next
            && r.event.text == p.text && r.event.origin == b.session.value.who.agent && r.event.turn == p.turn
            && r.event.modality == (if p.modality == "text" then "text" else "voice") && r.event.metadata == p.metadata)
  {}

  /** An output of a turn: it says the chunk, in the turn and modality of the input it names. */
  predicate Answers(input: Event, chunk: string, e: Event) {
    && e.text == chunk && e.direction.Output? && e.turn == input.turn
    && e.modality == (if input.modality == "text" then "text" else "voice")
    && e.metadata == map["input_event_id" := input.id]
  }

  predicate AllAnswer(input: Event, said: seq<string>, es: seq<Event>) {
    |es| == |said| && forall k | 0 <= k < |es| :: Answers(input, said[k], es[k])
  }

  lemma {:induction false} MoreAnswer(input: Event, chunk: string, said: seq<string>, e: Event, outs: seq<Event>)
    requires Answers(input, chunk, e) && |outs| <= |said| && AllAnswer(input, said[..|outs|], outs)
    ensures AllAnswer(input, ([chunk] + said)[..|outs| + 1], [e] + outs)
  {
    forall k | 0 <= k <= |outs| ensures Answers(input, ([chunk] + said)[k], ([e] + outs)[k]) {
      if k > 0 { assert ([chunk] + said)[k] == said[..|outs|][k - 1]; }
    }
  }

  /**
   * What a turn publishes with nobody else about: for each non-empty chunk, in order, one event that says
   * that chunk, in the turn and modality of the input. A refusal leaves those of some chunks before it.
   */
  lemma {:induction false} StreamSays(b: Bus, input: Event, chunks: seq<string>, ids: seq<string>)
      returns (outs: seq<Event>)
    requires |chunks| == |ids|
    ensures var (b', r) := Stream(b, input, chunks, ids);
      && b'.events == b.events + outs && |outs| <= |NonEmpty(chunks)|
      && AllAnswer(input, NonEmpty(chunks)[..|outs|], outs)
      && (r.Done? <==> |outs| == |NonEmpty(chunks)|)
    decreases |chunks|
  {
    if chunks == [] {
      outs := [];
      assert b.events + [] == b.events;
    } else if chunks[0] == "" {
      outs := StreamSays(b, input, chunks[1..], ids[1..]);
      assert [] + NonEmpty(chunks[1..]) == NonEmpty(chunks[1..]);
    } else {
      var (b', r) := DoPublish(b, ids[0], Answer(input, chunks[0]));
      PublishSays(b, ids[0], Answer(input, chunks[0]));
      if r.Appended? {
        var more := StreamSays(b', input, chunks[1..], ids[1..]);
        ConcatAssoc(b.events, [r.event], more);
        MoreAnswer(input, chunks[0], NonEmpty(chunks[1..]), r.event, more);
        outs := [r.event] + more;
      } else {
        outs := [];
        assert b.events + [] == b.events;
      }
    }
  }

  // ------------------------------------------------------------------------ the log object

  class CanonicalEventLog {
    /** The JSONL file, when the log has one. */
    var file: Option<seq<Event>>
    var events: seq<Event>
    var ids: set<string>
    var keys: set<string>

    ghost predicate Valid()
      reads this
    {
      ids == IdsOf(events) && keys == KeysOf(events) && (file.Some? ==> file.value == events)
    }

    /** Replays the file: everything the log knew is known again. */
    constructor (file: Option<seq<Event>>)
      ensures Valid() && this.file == file && events == if file.Some? then file.value else []
    {
      this.file, events, ids, keys := file, [], {}, {};
      new;
      if file.Some? {
        var i := 0;
        while i < |file.value|
          invariant 0 <= i <= |file.value| && events == file.value[..i]
          invariant ids == IdsOf(events) && keys == KeysOf(events) && this.file == file
        {
          Record(file.value[i]);
          i := i + 1;
        }
      }
    }

    /** Adds an event to the list and to both indexes. */
    method Record(e: Event)
      requires ids == IdsOf(events) && keys == KeysOf(events)
      modifies this`events, this`ids, this`keys
      ensures events == old(events) + [e] && ids == IdsOf(events) && keys == KeysOf(events)
    {
      IndexSnoc(events, e);
      events := events + [e];
      ids := ids + {e.id};
      if Key(e) != "" {
        keys := keys + {Key(e)};
      }
    }

    method Append(e: Event) returns (r: Reply)
      requires Valid()
      modifies this
      ensures Valid() && r == Verdict(old(events), e)
      ensures events == if r.Appended? then old(events) + [e] else old(events)
      ensures file == if r.Appended? && old(file).Some? then Some(old(file).value + [e]) else old(file)
    {
      if e.id in ids {
        return Duplicate(e.id);
      }
      if Key(e) != "" && Key(e) in keys {
        return Duplicate(Key(e));
      }
      if events != [] {
        var previous := events[|events| - 1];
        if e.session == previous.session && e.sequence != previous.sequence + 1 {
          return Conflict(previous.sequence + 1, e.sequence);
        }
      }
      if file.Some? {
        file := Some(file.value + [e]);
      }
      Record(e);
      return Appended(e);
    }

    method Events(session: Option<string>) returns (es: seq<Event>)
      ensures es == if session.None? then events else OfSession(events, session.value)
    {
      if session.None? {
        return events;
      }
      es := [];
      for i := 0 to |events|
        invariant es == OfSession(events[..i], session.value)
      {
        TakeSnoc(events, i);
        if events[i].session == session.value {
          es := es + [events[i]];
        }
      }
      assert events[..|events|] == events;
    }

    method FindIdempotency(key: string) returns (found: Option<Event>)
      ensures found == Find(events, key)
    {
      for i := 0 to |events|
        invariant Find(events[..i], key) == None
      {
        TakeSnoc(events, i);
        if Key(events[i]) == key {
          FindStays(events, i + 1, key);
          return Some(events[i]);
        }
      }
      assert events[..|events|] == events;
      return None;
    }
  }

  lemma IndexSnoc(es: seq<Event>, e: Event)
    ensures IdsOf(es + [e]) == IdsOf(es) + {e.id}
    ensures KeysOf(es + [e]) == KeysOf(es) + if Key(e) == "" then {} else {Key(e)}
  {
    assert forall x :: x in es + [e] <==> x in es || x == e;
  }

  lemma TakeSnoc<T>(s: seq<T>, i: nat)
    requires i < |s|
    ensures s[..i + 1] == s[..i] + [s[i]] && s[..i + 1][..i] == s[..i]
  {}

  lemma {:induction false} FindStays(es: seq<Event>, n: nat, key: string)
    requires n <= |es| && Find(es[..n], key).Some?
    ensures Find(es, key) == Find(es[..n], key)
    decreases |es|
  {
    if n < |es| {
      assert es[..|es| - 1][..n] == es[..n];
      FindStays(es[..|es| - 1], n, key);
    } else {
      assert es[..n] == es;
    }
  }

  // ------------------------------------------------------------------------ the bus object

  class SessionBus {
    const log: CanonicalEventLog
    var session: Option<Session>
    var adapter: bool
    /** The outputs each finished turn returned, by input event. */
    var outputs: map<string, seq<Event>>

    ghost function View(): Bus
      reads this, log
    { Bus(log.events, session, adapter) }

    constructor (log: CanonicalEventLog)
      ensures this.log == log && View() == Bus(log.events, None, false) && outputs == map[]
    {
      this.log, session, adapter, outputs := log, None, false, map[];
    }

    method RequireSession(id: Option<string>) returns (r: Reply)
      ensures r == SessionCheck(View(), id)
    {
      if session.None? {
        return NoActiveSession;
      }
      return if id.Some? && session.value.id != id.value then Mismatch else Done;
    }

    method RegisterCurrentSession(id: string, who: Identity, withAdapter: bool) returns (r: Reply)
      modifies this`session, this`adapter
      ensures (View(), r) == DoRegister(old(View()), id, who, withAdapter)
    {
      if session.Some? {
        if session.value.id != id || session.value.who != who {
          return Mismatch;
        }
      } else {
        var next := 1;
        var previous := log.Events(Some(id));
        if previous != [] {
          var most := previous[0].sequence;
          for i := 1 to |previous|
            invariant most == MaxSequence(previous[..i]) && View() == old(View())
          {
            TakeSnoc(previous, i);
            if most < previous[i].sequence {
              most := previous[i].sequence;
            }
          }
          assert previous[..|previous|] == previous;
          next := most + 1;
        }
        session := Some(Session(id, who, "detached", next, false, None));
      }
      if withAdapter {
        adapter := true;
      }
      return Done;
    }

    method RegisterAdapter() returns (r: Reply)
      modifies this`adapter
      ensures (View(), r) == DoRegisterAdapter(old(View()))
    {
      if session.None? {
        return NoActiveSession;
      }
      adapter := true;
      return Done;
    }

    method AttachVoice(id: string, owner: string, now: int, nonce: string, expires: int) returns (r: Reply)
      modifies this`session
      ensures (View(), r) == DoAttach(old(View()), id, owner, now, nonce, expires)
    {
      r := RequireSession(Some(id));
      if r != Done {
        return;
      }
      var s := session.value;
      if s.status == "closed" {
        return Mismatch;
      }
      if !Live(s.lease, now) {
        s := s.(lease := Some(Lease(nonce, owner, expires)));
      } else if s.lease.value.owner != owner {
        return Mismatch;
      }
      session := Some(s.(status := "attached", voice := true));
    }

    method DetachVoice(id: string, nonce: string) returns (r: Reply)
      modifies this`session
      ensures (View(), r) == DoDetach(old(View()), id, nonce)
    {
      r := RequireSession(Some(id));
      if r != Done {
        return;
      }
      var s := session.value;
      if s.lease.Some? && nonce != "" && s.lease.value.nonce != nonce {
        return Mismatch;
      }
      session := Some(s.(lease := None, voice := false, status := "detached"));
    }

    method AppendEvent(e: Event) returns (r: Reply)
      requires log.Valid() && session.Some?
      modifies this`session, log
      ensures log.Valid() && (View(), r) == Append(old(View()), e)
    {
      r := log.Append(e);
      if r.Appended? {
        session := Some(session.value.(next := session.value.next + 1));
      }
    }

    method PublishOutput(id: string, p: Publication) returns (r: Reply)
      requires log.Valid()
      modifies this`session, log
      ensures log.Valid() && (View(), r) == DoPublish(old(View()), id, p)
    {
      r := RequireSession(None);
      if r == Done {
        r := AppendEvent(OutputEvent(session.value, id, p));
      }
    }

    /** The input side of a turn: what happens under both locks. */
    method AcceptInput(id: string, q: Request, now: int) returns (r: Reply)
      requires log.Valid()
      modifies this`session, log
      ensures log.Valid() && (View(), r) == DoSubmit(old(View()), id, q, now)
    {
      if !KnownModality(q.modality) {
        return BadModality;
      }
      if Strip(q.text) == "" {
        return Replayed([]);
      }
      r := RequireSession(Some(q.session));
      if r != Done {
        return;
      }
      var s := session.value;
      if s.lease.None? || s.lease.value.nonce != q.nonce || !Live(s.lease, now) {
        return LeaseExpired;
      }
      if !adapter {
        return BridgeUnavailable;
      }
      if RequestKey(q) != "" {
        var existing := log.FindIdempotency(RequestKey(q));
        if existing.Some? {
          var all := log.Events(Some(q.session));
          var outs := [];
          for i := 0 to |all|
            invariant outs == Naming(all[..i], q.session, existing.value.id)
            invariant View() == old(View()) && log.Valid()
          {
            TakeSnoc(all, i);
            SessionMember(log.events, q.session, i);
            if Names(all[i]) == existing.value.id {
              outs := outs + [all[i]];
            }
          }
          assert all[..|all|] == all;
          NamingOfSession(log.events, q.session, existing.value.id);
          return Replayed([existing.value] + outs);
        }
      }
      r := AppendEvent(InputEvent(s, id, q));
    }

    /** The output side of a turn, for the chunks the adapter yielded. */
    method StreamOutputs(input: Event, chunks: seq<string>, ids: seq<string>) returns (r: Reply)
      requires log.Valid() && |chunks| == |ids|
      modifies this`session, this`outputs, log
      ensures log.Valid() && (View(), r) == Stream(old(View()), input, chunks, ids)
      ensures var added := NewSince(old(log.events), log.events);
        && log.events == old(log.events) + added && |added| <= |NonEmpty(chunks)|
        && AllAnswer(input, NonEmpty(chunks)[..|added|], added) && (r.Done? <==> |added| == |NonEmpty(chunks)|)
      ensures r.Done? ==> outputs == old(outputs)[input.id := NewSince(old(log.events), log.events)]
      ensures !r.Done? ==> outputs == old(outputs)
    {
      ghost var said := StreamSays(View(), input, chunks, ids);
      var rest, names, outs := chunks, ids, [];
      while rest != []
        invariant |rest| == |names| && log.Valid() && outputs == old(outputs)
        invariant log.events == old(log.events) + outs
        invariant Stream(View(), input, rest, names) == Stream(old(View()), input, chunks, ids)
        decreases |rest|
      {
        if rest[0] != "" {
          r := PublishOutput(names[0], Answer(input, rest[0]));
          if !r.Appended? {
            return;
          }
          outs := outs + [r.event];
        }
        rest, names := rest[1..], names[1..];
      }
      outputs := outputs[input.id := outs];
      r := Done;
    }
  }

  /** What was appended to `before`. */
  function NewSince(before: seq<Event>, es: seq<Event>): seq<Event> { if before <= es then es[|before|..] else [] }

  lemma {:induction false} SessionMember(es: seq<Event>, session: string, i: nat)
    requires i < |OfSession(es, session)|
    ensures OfSession(es, session)[i].session == session
    decreases |es|
  {
    if i < |OfSession(es[..|es| - 1], session)| {
      SessionMember(es[..|es| - 1], session, i);
    }
  }

  lemma {:induction false} NamingOfSession(es: seq<Event>, session: string, id: string)
    ensures Naming(OfSession(es, session), session, id) == Naming(es, session, id)
    decreases |es|
  {
    if es != [] {
      var init := es[..|es| - 1];
      NamingOfSession(init, session, id);
      if es[|es| - 1].session == session {
        var mine := OfSession(init, session) + [es[|es| - 1]];
        assert mine[..|mine| - 1] == OfSession(init, session);
      } else {
        assert OfSession(es, session) == OfSession(init, session);
      }
    }
  }
}
