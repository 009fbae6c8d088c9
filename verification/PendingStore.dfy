/**
  The bridge's store of pending requests: a locked map of one-shot entries. Each method body is one step of the
  bridge, with one acquisition of the lock. `complete` sends after it has released the lock; the entry is out of the
  map by then, so only its receiver could tell, and that may time out after the send as well as before it.
 */
module PendingStore {
  import opened Wrappers

  type Id = nat

  datatype RequestResult = Success(result: string) | Error(error: string, code: Option<string>)

  /** A one-shot channel: open, used by its sender, or dropped unused. */
  datatype Channel = Open | Sent(result: RequestResult) | Closed

  /** The store as a value: what is pending, and the state of each id's latest channel. */
  datatype Store<R> = Store(pending: map<Id, R>, channels: map<Id, Channel>)

  function Created<R>(st: Store<R>, id: Id, request: R): Store<R> {
    Store(st.pending[id := request], st.channels[id := Open])
  }

  function Completed<R>(st: Store<R>, id: Id, result: RequestResult): Store<R> {
    if id in st.pending then Store(st.pending - {id}, st.channels[id := Sent(result)]) else st
  }

  function Cancelled<R>(st: Store<R>, id: Id): Store<R> {
    if id in st.pending then Store(st.pending - {id}, st.channels[id := Closed]) else st
  }

  class OneShot {
    /** The id whose receiver it serves. */
    ghost const owner: Id
    var state: Channel

    constructor (ghost id: Id)
      ensures owner == id && state == Open
    {
      owner := id;
      state := Open;
    }

    /** Consumes the sender. A receiver that is gone makes no difference to the store. */
    method Send(result: RequestResult)
      modifies this
      ensures state == Sent(result)
    {
      state := Sent(result);
    }

    /** The sender is dropped: a receiver still waiting gets an error. */
    method Drop()
      modifies this
      ensures state == Closed
    {
      state := Closed;
    }
  }

  datatype Entry<R> = Entry(request: R, tx: OneShot)

  function RequestsOf<R>(pending: map<Id, Entry<R>>): map<Id, R> {
    map id | id in pending :: pending[id].request
  }

  lemma RequestsWith<R>(pending: map<Id, Entry<R>>, id: Id, entry: Entry<R>)
    ensures RequestsOf(pending[id := entry]) == RequestsOf(pending)[id := entry.request]
  {
  }

  lemma RequestsWithout<R>(pending: map<Id, Entry<R>>, id: Id)
    ensures RequestsOf(pending - {id}) == RequestsOf(pending) - {id}
  {
  }

  class Pending<R> {
    var pending: map<Id, Entry<R>>
    ghost var latest: map<Id, OneShot>

    ghost predicate Valid()
      reads this, latest.Values
    {
      && pending.Keys <= latest.Keys
      && (forall id :: id in pending ==> pending[id].tx == latest[id])
      && (forall id :: id in latest ==> latest[id].owner == id && (id in pending <==> latest[id].state.Open?))
    }

    ghost function Contents(): Store<R>
      reads this, latest.Values
    {
      Store(Requests(), Channels())
    }

    ghost function Requests(): (m: map<Id, R>)
      reads this
    {
      RequestsOf(pending)
    }

    ghost function Channels(): (m: map<Id, Channel>)
      reads this, latest.Values
    {
      map id | id in latest :: latest[id].state
    }

    constructor ()
      ensures Valid() && Contents() == Store(map[], map[])
    {
      pending, latest := map[], map[];
    }

    /** Registers a request. An id that is already pending is replaced, and its receiver is let go. */
    method Create(id: Id, request: R) returns (rx: OneShot)
      requires Valid()
      modifies this, latest.Values
      ensures Valid() && fresh(rx) && latest == old(latest)[id := rx]
      ensures Contents() == Created(old(Contents()), id, request)
      ensures id in old(latest) ==> !old(latest)[id].state.Open?
    {
      rx := new OneShot(id);
      if id in pending { pending[id].tx.Drop(); }
      pending := pending[id := Entry(request, rx)];
      latest := latest[id := rx];
      RequestsWith(old(pending), id, Entry(request, rx));
      assert Channels() == old(Channels())[id := Open];
    }

    method Get(id: Id) returns (r: Option<R>)
      requires Valid()
      ensures r == if id in Contents().pending then Some(Contents().pending[id]) else None
    {
      r := if id in pending then Some(pending[id].request) else None;
    }

    method Has(id: Id) returns (r: bool)
      requires Valid()
      ensures r == (id in Contents().pending)
    {
      r := id in pending;
    }

    method Len() returns (n: nat)
      requires Valid()
      ensures n == |Contents().pending|
    {
      assert Contents().pending.Keys == pending.Keys;
      n := |pending|;
    }

    method Complete(id: Id, result: RequestResult) returns (ok: bool)
      requires Valid()
      modifies this, latest.Values
      ensures Valid() && latest == old(latest)
      ensures ok == (id in old(Contents()).pending)
      ensures Contents() == Completed(old(Contents()), id, result)
    {
      ok := id in pending;
      if ok {
        var entry := pending[id];
        pending := pending - {id};
        entry.tx.Send(result);
        RequestsWithout(old(pending), id);
        assert Channels() == old(Channels())[id := Sent(result)];
      }
    }

    method Cancel(id: Id) returns (ok: bool)
      requires Valid()
      modifies this, latest.Values
      ensures Valid() && latest == old(latest)
      ensures ok == (id in old(Contents()).pending)
      ensures Contents() == Cancelled(old(Contents()), id)
    {
      ok := id in pending;
      if ok {
        var entry := pending[id];
        pending := pending - {id};
        entry.tx.Drop();
        RequestsWithout(old(pending), id);
        assert Channels() == old(Channels())[id := Closed];
      }
    }
  }
}
