/** The in-memory message store: an append-only log. The mutex that serialises
    callers in Go is not needed here, where every call is a state transition. */
module Memory {
  import opened Results
  import opened Models

  datatype MemoryStore = MemoryStore(messages: seq<Message>)

  /** A fresh store holds no message. */
  function NewMemoryStore(): (s: MemoryStore)
    ensures List(s) == Ok([])
  {
    MemoryStore([])
  }

  /** `Save` appends the message, keeps every earlier one where it was, and hands the
      message back; it never fails. */
  function Save(s: MemoryStore, msg: Message): (r: (MemoryStore, Reply<Message>))
    ensures r.1 == Ok(msg)
    ensures |r.0.messages| == |s.messages| + 1
    ensures r.0.messages[|s.messages|] == msg
    ensures forall i :: 0 <= i < |s.messages| ==> r.0.messages[i] == s.messages[i]
  {
    (MemoryStore(s.messages + [msg]), Ok(msg))
  }

  /** `List` succeeds with a copy of the log, oldest first. */
  function List(s: MemoryStore): (r: Reply<seq<Message>>)
    ensures r.Ok?
    ensures |r.value| == |s.messages|
    ensures forall i :: 0 <= i < |s.messages| ==> r.value[i] == s.messages[i]
  {
    Ok(s.messages)
  }

  /** Saving a batch one message at a time, in order. */
  function SaveAll(s: MemoryStore, batch: seq<Message>): MemoryStore
    decreases |batch|
  {
    if batch == [] then s else SaveAll(Save(s, batch[0]).0, batch[1..])
  }

  /** Listing after a series of saves yields the earlier listing followed by the
      saved messages in the order they were saved: a list taken before is a prefix
      of every later one and is not changed by the saves. */
  lemma {:induction false} ListAfterSaves(s: MemoryStore, batch: seq<Message>)
    ensures List(SaveAll(s, batch)).value == List(s).value + batch
    decreases |batch|
  {
    if batch == [] {
      assert List(s).value + batch == List(s).value;
    } else {
      var s' := Save(s, batch[0]).0;
      ListAfterSaves(s', batch[1..]);
      assert List(s').value == List(s).value + [batch[0]];
      assert [batch[0]] + batch[1..] == batch;
      assert List(s).value + [batch[0]] + batch[1..] == List(s).value + batch;
    }
  }

  /** Listing a store that received `batch` from new gives back exactly `batch`. */
  lemma ListFromNew(batch: seq<Message>)
    ensures List(SaveAll(NewMemoryStore(), batch)) == Ok(batch)
  {
    ListAfterSaves(NewMemoryStore(), batch);
    assert [] + batch == batch;
  }
}
