/** `src/session/manager.rs`: the table of live streams, with a ghost record of every stream it ever held. */
module RegistryImpl {
  import opened Base
  import opened Frames
  import S = Streams
  import E = Endpoints
  import opened Channels
  import opened StreamImpl

  /** The streams own their parts and share none of them. */
  ghost predicate Apart(m: map<u32, StreamInner>, parts: set<object>) {
    && (forall id :: id in m ==> m[id].Repr <= parts)
    && (forall i, j :: i in m && j in m && i != j ==> m[i].Repr !! m[j].Repr)
  }

  lemma ApartMore(m: map<u32, StreamInner>, parts: set<object>, id: u32, s: StreamInner)
    requires Apart(m, parts) && s.Repr !! parts
    ensures Apart(m[id := s], parts + s.Repr)
  {
  }

  /** The table once `id` has been taken out. */
  ghost function Unregistered(entries: map<u32, E.Entry>, id: u32): map<u32, E.Entry> {
    if id in entries then entries[id := entries[id].(registered := false)] else entries
  }

  /** The registry. The ghost fields remember every stream ever registered, the latest for each id. */
  class StreamRegistry {
    const maxFrame: u32
    const out: Channel<Frame>
    const closer: Channel<u32>
    var inner: map<u32, StreamInner>
    ghost var streams: map<u32, StreamInner>
    ghost var holders: map<u32, E.Holder>
    ghost var parts: set<object>

    ghost predicate Fits(s: StreamInner, id: u32) {
      s.Valid() && s.id == id && s.maxFrame == maxFrame && s.out == out && s.closer == closer
    }

    ghost predicate Valid()
      reads this`streams, this`holders, this`parts
    {
      && (out as object) != closer && this !in {out as object, closer}
      && {this, out as object, closer} !! parts
      && holders.Keys == streams.Keys
      && (forall id :: id in streams ==> Fits(streams[id], id))
      && Apart(streams, parts)
    }

    /** What is registered has been recorded. */
    ghost predicate Recorded()
      reads this
    {
      forall id :: id in inner ==> id in streams && streams[id] == inner[id]
    }

    ghost predicate RecordedBut(id: u32)
      reads this
    {
      forall j :: j in inner && j != id ==> j in streams && streams[j] == inner[j]
    }

    /** Once the last stream is on record, all are. */
    lemma Complete(id: u32)
      requires RecordedBut(id) && (id in inner ==> id in streams && streams[id] == inner[id])
      ensures Recorded()
    {
    }

    /** The view of the table agrees with the table. */
    lemma Known(id: u32)
      requires Valid() && Recorded()
      ensures id in inner <==> id in Entries() && Entries()[id].registered
      ensures id in inner ==> inner[id] == streams[id]
      ensures id in Entries() <==> id in streams
      ensures id in streams ==> Entries()[id] == EntryOf(id)
    {
    }

    lemma Own(id: u32)
      requires Valid() && id in streams
      ensures Fits(streams[id], id) && streams[id].Repr <= parts && this !in streams[id].Repr
    {
    }

    ghost function EntryOf(id: u32): E.Entry
      requires Valid() && id in streams
      reads this, parts
    {
      E.Entry(streams[id].View(), id in inner && inner[id] == streams[id], holders[id])
    }

    ghost function Entries(): map<u32, E.Entry>
      requires Valid()
      reads this, parts
    {
      map id | id in streams :: EntryOf(id)
    }

    constructor (maxFrame: u32, out: Channel<Frame>, closer: Channel<u32>)
      requires (out as object) != closer
      ensures Valid() && Recorded() && Entries() == map[] && parts == {} && streams == map[]
      ensures this.maxFrame == maxFrame && this.out == out && this.closer == closer
    {
      this.maxFrame, this.out, this.closer := maxFrame, out, closer;
      inner, streams, holders, parts := map[], map[], map[], {};
    }

    lemma Separate()
      requires Valid()
      ensures forall id :: id in streams ==> this !in streams[id].Repr
    {
    }

    lemma Inside()
      requires Valid()
      ensures streams.Values <= parts
    {
    }

    /** Nothing has changed but the stream `id`. */
    twostate lemma OneStream(id: u32)
      requires old(Valid()) && id in streams && unchanged(this) && unchanged(parts - streams[id].Repr)
      ensures Valid() && Entries() == old(Entries())[id := EntryOf(id)]
    {
      hide StreamInner.View, StreamInner.Valid;
    }

    /** Fails, changing nothing, exactly when the id is taken. The stream is recorded later. */
    method Insert(s: StreamInner) returns (ok: bool)
      requires Valid() && s.Repr !! parts && s in s.Repr
      modifies this`inner
      ensures Valid() && Entries() == old(Entries())
      ensures ok <==> s.id !in old(inner)
      ensures old(Recorded()) ==> RecordedBut(s.id)
      ensures inner == if ok then old(inner)[s.id := s] else old(inner)
    {
      hide StreamInner.View, StreamInner.Valid;
      if s.id in inner {
        return false;
      }
      inner := inner[s.id := s];
      assert forall id :: id in streams ==> streams[id] != s;
      return true;
    }

    ghost method Record(s: StreamInner, h: E.Holder)
      requires Valid() && Fits(s, s.id) && s.id in inner && inner[s.id] == s
      requires s.Repr !! parts + {this, out as object, closer}
      modifies this`streams, this`holders, this`parts
      ensures Valid() && parts == old(parts) + s.Repr
      ensures streams == old(streams)[s.id := s] && holders == old(holders)[s.id := h]
      ensures Entries() == old(Entries())[s.id := E.Entry(s.View(), true, h)]
    {
      hide StreamInner.View, StreamInner.Valid, Apart;
      Separate();
      ApartMore(streams, parts, s.id, s);
      streams, holders, parts := streams[s.id := s], holders[s.id := h], parts + s.Repr;
    }

    /** The stream passes to another holder. */
    ghost method Hand(id: u32, h: E.Holder)
      requires Valid() && Recorded() && id in streams
      modifies this`holders
      ensures Valid() && Recorded() && holders == old(holders)[id := h]
      ensures Entries() == old(Entries())[id := old(EntryOf(id)).(holder := h)]
    {
      hide StreamInner.View, StreamInner.Valid, Apart;
      Separate();
      holders := holders[id := h];
    }

    /** Only histories have changed, each as `Forgotten` says. */
    twostate lemma AllForgotten(k: nat)
      requires old(Valid()) && Valid() && k <= |out.items| && unchanged(this) && unchanged(out)
      requires forall id :: id in streams ==>
                 streams[id].View() == old(streams[id].View()).(
                   log := old(streams[id].log).(
                     kept := E.Cut(old(streams[id].log.kept), |Payload(Project(out.items[..k], id))|,
                                   |Payload(Project(out.items[k..], id))|)))
      ensures Entries() ==
              map id | id in old(Entries()) ::
                E.Forgotten(old(Entries())[id], |Payload(Project(out.items[..k], id))|,
                            |Payload(Project(out.items[k..], id))|)
    {
      hide StreamInner.Valid, Apart, E.Cut, Project, Payload;
    }

    /** The payload of the first `k` queued frames leaves the histories. */
    ghost method Forget(k: nat)
      requires Valid() && Recorded() && k <= |out.items|
      modifies parts
      ensures Valid() && Recorded()
      ensures Entries() ==
              map id | id in old(Entries()) ::
                E.Forgotten(old(Entries())[id], |Payload(Project(out.items[..k], id))|,
                            |Payload(Project(out.items[k..], id))|)
    {
      hide Apart, Entries, E.Cut, Project, Payload;
      Inside();
      forall s | s in streams.Values {
        s.log := s.log.(kept := E.Cut(s.log.kept, |Payload(Project(out.items[..k], s.id))|,
                                      |Payload(Project(out.items[k..], s.id))|));
      }
      AllForgotten(k);
    }

    method Get(id: u32) returns (r: Option<StreamInner>)
      requires Valid() && Recorded()
      ensures r.Some? <==> id in Entries() && EntryOf(id).registered
      ensures r.Some? ==> id in streams && r.value == streams[id]
    {
      return if id in inner then Some(inner[id]) else None;
    }

    method Remove(id: u32)
      requires Valid() && RecordedBut(id)
      modifies this`inner
      ensures Valid() && Recorded() && id !in inner
      ensures Entries() == Unregistered(old(Entries()), id)
    {
      hide StreamInner.View, StreamInner.Valid, Apart;
      Separate();
      inner := inner - {id};
    }

    method Len() returns (n: nat)
      requires Valid() && Recorded()
      ensures n == |inner.Keys|
    {
      return |inner|;
    }

    // -------------------------------------------------------------- draining

    ghost function Views(): map<u32, S.Stream>
      requires Valid()
      reads this`streams, this`holders, this`parts, parts
    {
      map id | id in streams :: streams[id].View()
    }

    /** The streams in `done` have been closed since they were as in `before`. */
    ghost predicate Forced(before: map<u32, S.Stream>, done: set<u32>)
      requires Valid()
      reads this`streams, this`holders, this`parts, parts
    {
      forall id :: id in streams && id in before ==>
        streams[id].View() == if id in done then S.ForceClose(before[id]) else before[id]
    }

    method Drain() returns (drained: map<u32, StreamInner>)
      requires Valid() && Recorded()
      modifies this`inner
      ensures Valid() && drained == old(inner) && inner == map[] && Views() == old(Views())
    {
      hide StreamInner.View, StreamInner.Valid, Views;
      drained, inner := inner, map[];
    }

    lemma NothingForced()
      requires Valid()
      ensures Forced(Views(), {})
    {
    }

    method ForceOne(s: StreamInner, ghost before: map<u32, S.Stream>, ghost done: set<u32>)
      requires Valid() && s.id in streams && streams[s.id] == s && s.id !in done && Forced(before, done)
      modifies s.Repr
      ensures Valid() && Forced(before, done + {s.id})
    {
      hide StreamInner.View, StreamInner.Valid, S.ForceClose;
      s.ForceClose();
    }

    method ForceEach(drained: map<u32, StreamInner>)
      requires Valid() && forall id :: id in drained ==> id in streams && drained[id] == streams[id]
      modifies parts
      ensures Valid() && Forced(old(Views()), drained.Keys)
    {
      hide StreamInner.View, StreamInner.Valid, Forced, Views;
      NothingForced();
      ghost var before, done := Views(), {};
      var todo := drained;
      while todo != map[]
        invariant Valid()
        invariant forall id :: id in todo ==> id in streams && todo[id] == streams[id]
        invariant done == drained.Keys - todo.Keys && todo.Keys <= drained.Keys && Forced(before, done)
        modifies parts
        decreases todo.Keys
      {
        var id :| id in todo;
        ForceOne(todo[id], before, done);
        todo, done := todo - {id}, done + {id};
      }
      assert done == drained.Keys;
    }

    twostate lemma AllForced()
      requires Valid() && old(Valid()) && old(Recorded())
      requires streams == old(streams) && holders == old(holders) && inner == map[]
      requires Forced(old(Views()), old(inner).Keys)
      ensures Entries() == map id | id in old(Entries()) :: E.CloseEntry(old(Entries())[id])
    {
      hide StreamInner.View, StreamInner.Valid, S.ForceClose;
      forall id | id in streams
        ensures EntryOf(id) == E.CloseEntry(old(EntryOf(id)))
      {
      }
    }

    /** Empties the registry and force-closes what was in it. */
    method CloseAll()
      requires Valid() && Recorded()
      modifies this`inner, parts
      ensures Valid() && Recorded()
      ensures Entries() == map id | id in old(Entries()) :: E.CloseEntry(old(Entries())[id])
    {
      hide StreamInner.View, StreamInner.Valid, Forced, Views, Entries;
      var drained := Drain();
      ForceEach(drained);
      AllForced();
    }
  }
}
