/** The contents of TestMqMedia's registry as a value: each tag maps to the entries of its
    MediaSubscription's handler dictionary, as (id, handler) pairs in enumeration order. */
module Registry {
  import opened Messages

  datatype Entry = Entry(id: string, handler: HandlerId)

  type Table = map<string, seq<Entry>>

  function IdsOf(entries: seq<Entry>): set<string> {
    set e | e in entries :: e.id
  }

  /** Dictionary keys are distinct. */
  predicate UniqueIds(entries: seq<Entry>) {
    forall i, j :: 0 <= i < j < |entries| ==> entries[i].id != entries[j].id
  }

  /** `_handlers.Values.ToList()`: a copy of the callbacks, in order. */
  function HandlersOf(entries: seq<Entry>): seq<HandlerId>
  {
    seq(|entries|, i requires 0 <= i < |entries| => entries[i].handler)
  }

  /** `_handlers.Remove(id)`: the entries whose id differs from `id`, in order. */
  function Without(entries: seq<Entry>, id: string): (rest: seq<Entry>)
    ensures IdsOf(rest) == IdsOf(entries) - {id}
    ensures |rest| <= |entries|
  {
    if entries == [] then []
    else
      IdsOfCons(entries[0], entries[1..]);
      assert entries == [entries[0]] + entries[1..];
      if entries[0].id == id then Without(entries[1..], id)
      else
        IdsOfCons(entries[0], Without(entries[1..], id));
        [entries[0]] + Without(entries[1..], id)
  }

  lemma IdsOfCons(e: Entry, entries: seq<Entry>)
    ensures IdsOf([e] + entries) == {e.id} + IdsOf(entries)
  {
    assert forall x :: x in [e] + entries <==> x == e || x in entries;
  }

  /** Removing a key that is absent changes nothing. */
  lemma {:induction false} WithoutAbsent(entries: seq<Entry>, id: string)
    requires id !in IdsOf(entries)
    ensures Without(entries, id) == entries
  {
    if entries != [] {
      assert entries[0] in entries;
      assert entries == [entries[0]] + entries[1..];
      WithoutAbsent(entries[1..], id);
    }
  }

  /** Removing a present key drops exactly the one entry that holds it. */
  lemma {:induction false} WithoutPresent(entries: seq<Entry>, id: string, k: nat)
    requires UniqueIds(entries)
    requires k < |entries| && entries[k].id == id
    ensures Without(entries, id) == entries[..k] + entries[k + 1..]
  {
    if k == 0 {
      assert id !in IdsOf(entries[1..]) by {
        forall e | e in entries[1..] ensures e.id != id {
          var j :| 0 <= j < |entries[1..]| && entries[1..][j] == e;
          assert entries[j + 1] == e;
        }
      }
      WithoutAbsent(entries[1..], id);
    } else {
      WithoutPresent(entries[1..], id, k - 1);
      assert entries[1..][..k - 1] == entries[1..k];
      assert entries[1..][k..] == entries[k + 1..];
      assert entries[..k] == [entries[0]] + entries[1..k];
    }
  }

  /** Every entry with another id survives a removal. */
  lemma {:induction false} WithoutKeeps(entries: seq<Entry>, id: string, e: Entry)
    requires e in entries && e.id != id
    ensures e in Without(entries, id)
  {
    if entries[0] != e {
      WithoutKeeps(entries[1..], id, e);
    }
  }

  /** Removal keeps the keys distinct. */
  lemma {:induction false} WithoutUnique(entries: seq<Entry>, id: string)
    requires UniqueIds(entries)
    ensures UniqueIds(Without(entries, id))
  {
    if entries != [] {
      WithoutUnique(entries[1..], id);
      if entries[0].id != id {
        var rest := Without(entries[1..], id);
        assert entries[0].id !in IdsOf(rest) by {
          forall e | e in entries[1..] ensures e.id != entries[0].id {
            var j :| 0 <= j < |entries[1..]| && entries[1..][j] == e;
            assert entries[j + 1] == e;
          }
        }
        forall j | 0 < j < |[entries[0]] + rest|
          ensures ([entries[0]] + rest)[j].id != entries[0].id
        {
          assert rest[j - 1] in rest;
        }
      }
    }
  }

  /** Adding an entry under a fresh key keeps the keys distinct. */
  lemma AppendUnique(entries: seq<Entry>, e: Entry)
    requires UniqueIds(entries) && e.id !in IdsOf(entries)
    ensures UniqueIds(entries + [e])
  {
    forall i | 0 <= i < |entries|
      ensures entries[i].id != e.id
    {
      assert entries[i] in entries;
    }
  }

  /** The entries registered under a tag; none if the tag has no subscription. */
  function Lookup(table: Table, tag: string): seq<Entry> {
    if tag in table then table[tag] else []
  }

  /** Every handler dictionary has distinct keys. */
  predicate WellFormed(table: Table) {
    forall tag :: tag in table ==> UniqueIds(table[tag])
  }

  /** Find-or-create the subscription of a tag, adding no handler. */
  function Touch(table: Table, tag: string): (result: Table)
    ensures result.Keys == table.Keys + {tag}
    ensures result[tag] == Lookup(table, tag)
    ensures forall t :: t in table ==> result[t] == table[t]
  {
    if tag in table then table else table[tag := []]
  }

  /** Find-or-create keeps every handler list free of duplicate ids. */
  lemma TouchWellFormed(table: Table, tag: string)
    requires WellFormed(table)
    ensures WellFormed(Touch(table, tag))
  {
  }

  /** Registering after the find-or-create step is registering. */
  lemma RegisterAfterTouch(table: Table, tag: string, id: string, handler: HandlerId)
    ensures Touch(table, tag)[tag] == Lookup(table, tag)
    ensures Register(Touch(table, tag), tag, id, handler) == Register(table, tag, id, handler)
  {
  }

  /** Find-or-create the subscription of a tag and append one handler under `id`. */
  function Register(table: Table, tag: string, id: string, handler: HandlerId): (result: Table)
    ensures result.Keys == table.Keys + {tag}
    ensures forall t :: t in table && t != tag ==> result[t] == table[t]
  {
    table[tag := Lookup(table, tag) + [Entry(id, handler)]]
  }

  /** `Unsubscribe(tag, id)`: drop the id from the tag's subscription, if there is one. */
  function Unregister(table: Table, tag: string, id: string): (result: Table)
    ensures result.Keys == table.Keys
    ensures forall t :: t in table && t != tag ==> result[t] == table[t]
  {
    if tag in table then table[tag := Without(table[tag], id)] else table
  }

  /** A registration under a fresh id adds exactly one handler, at the end of its tag's
      list, and keeps the table well formed. */
  lemma RegisterAppendsOne(table: Table, tag: string, id: string, handler: HandlerId)
    requires WellFormed(table) && id !in IdsOf(Lookup(table, tag))
    ensures var result := Register(table, tag, id, handler);
      && WellFormed(result)
      && HandlersOf(result[tag]) == HandlersOf(Lookup(table, tag)) + [handler]
      && IdsOf(result[tag]) == IdsOf(Lookup(table, tag)) + {id}
  {
    AppendUnique(Lookup(table, tag), Entry(id, handler));
    var result := Register(table, tag, id, handler);
    assert HandlersOf(result[tag]) == HandlersOf(Lookup(table, tag)) + [handler];
  }

  /** Unsubscribing with its own id undoes a registration, except that the subscription
      record created on the way stays. */
  lemma RegisterThenUnregister(table: Table, tag: string, id: string, handler: HandlerId)
    requires id !in IdsOf(Lookup(table, tag))
    ensures Unregister(Register(table, tag, id, handler), tag, id) == Touch(table, tag)
  {
    var entries := Lookup(table, tag);
    var added := entries + [Entry(id, handler)];
    assert added[|entries|].id == id;
    WithoutAbsent(entries, id);
    WithoutSplitLast(entries, Entry(id, handler));
  }

  lemma {:induction false} WithoutSplitLast(entries: seq<Entry>, e: Entry)
    requires e.id !in IdsOf(entries)
    ensures Without(entries + [e], e.id) == entries
  {
    if entries == [] {
      assert [e][1..] == [];
    } else {
      assert (entries + [e])[1..] == entries[1..] + [e];
      assert entries[0] in entries;
      WithoutSplitLast(entries[1..], e);
      assert entries == [entries[0]] + entries[1..];
    }
  }

  /** Unsubscribing removes only the matching handler: every other entry of the tag stays,
      every other tag is untouched, and the subscription record stays even when emptied. */
  lemma UnregisterRemovesOnlyOwn(table: Table, tag: string, id: string)
    requires WellFormed(table)
    ensures var result := Unregister(table, tag, id);
      && WellFormed(result)
      && result.Keys == table.Keys
      && id !in IdsOf(Lookup(result, tag))
      && (forall e :: e in Lookup(table, tag) && e.id != id ==> e in Lookup(result, tag))
      && (forall e :: e in Lookup(result, tag) ==> e in Lookup(table, tag))
  {
    if tag in table {
      WithoutUnique(table[tag], id);
      forall e | e in table[tag] && e.id != id
        ensures e in Without(table[tag], id)
      {
        WithoutKeeps(table[tag], id, e);
      }
      forall e | e in Without(table[tag], id)
        ensures e in table[tag]
      {
        WithoutSubset(table[tag], id, e);
      }
    }
  }

  lemma {:induction false} WithoutSubset(entries: seq<Entry>, id: string, e: Entry)
    requires e in Without(entries, id)
    ensures e in entries
  {
    if entries != [] && e != entries[0] {
      WithoutSubset(entries[1..], id, e);
    }
  }

  /** A second Unsubscribe with the same (tag, id) changes nothing. */
  lemma UnregisterIdempotent(table: Table, tag: string, id: string)
    ensures Unregister(Unregister(table, tag, id), tag, id) == Unregister(table, tag, id)
  {
    if tag in table {
      WithoutAbsent(Without(table[tag], id), id);
    }
  }
}
