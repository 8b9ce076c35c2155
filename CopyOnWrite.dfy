/** A copy-on-write collection: `IOSCollection` is a value wrapper around a
    shared, mutable, reference-typed array (an `NSMutableArray`). Its `append`
    copies the storage before writing whenever someone else also holds it; its
    `appendWOCopy` writes into the shared storage, so every holder sees the write.

    Storage identity is Dafny object identity. The runtime's reference count is
    the explicit field `refCount` of the storage; the ghost set `holders` names
    the collections among those references, which is what lets the proofs say
    who else can observe a write. */
module CopyOnWrite {

  /** The mutable array that collections share by reference. */
  class Storage<T> {
    var elems: seq<T>
    /** Number of strong references to this object (collections and plain variables). */
    var refCount: nat
    /** The collections that hold one of those references. */
    ghost var holders: set<object>

    ghost predicate Valid()
      reads this
    {
      |holders| <= refCount
    }

    /** A new empty array, held by the one variable it is assigned to. */
    constructor ()
      ensures Valid()
      ensures elems == [] && refCount == 1 && holders == {}
    {
      elems, refCount, holders := [], 1, {};
    }

    /** Appends `x` in place, whoever else holds this storage. */
    method Add(x: T)
      modifies this
      ensures elems == old(elems) + [x]
      ensures refCount == old(refCount) && holders == old(holders)
    {
      elems := elems + [x];
    }

    /** A new array with the same elements, held by the one reference of collection `holder`. */
    method MutableCopy(ghost holder: object) returns (c: Storage<T>)
      ensures fresh(c) && c.Valid()
      ensures c.elems == elems && c.refCount == 1 && c.holders == {holder}
    {
      c := new Storage();
      c.elems := elems;
      c.holders := {holder};
    }

    /** Collection `holder` takes a reference to this storage. */
    method Retain(ghost holder: object)
      requires Valid()
      modifies this
      ensures Valid() && elems == old(elems)
      ensures refCount == old(refCount) + 1 && holders == old(holders) + {holder}
    {
      refCount := refCount + 1;
      holders := holders + {holder};
    }

    /** Collection `holder` drops its reference to this storage. */
    method Release(ghost holder: object)
      requires Valid() && holder in holders
      modifies this
      ensures Valid() && elems == old(elems)
      ensures refCount == old(refCount) - 1 && holders == old(holders) - {holder}
    {
      assert |holders - {holder}| == |holders| - 1;
      refCount := refCount - 1;
      holders := holders - {holder};
    }
  }

  /** The collection: one handle to a storage object. Each Swift variable of
      this struct type is one object of this class. */
  class IOSCollection<T> {
    var data: Storage<T>

    ghost predicate Valid()
      reads this, data
    {
      data.Valid() && this in data.holders
    }

    /** What the collection shows: the elements of its storage. */
    function Elements(): seq<T>
      reads this, data
    {
      data.elems
    }

    /** The runtime's `isKnownUniquelyReferenced(&data)`. */
    predicate IsKnownUniquelyReferenced()
      reads this, data
    {
      data.refCount == 1
    }

    /** A storage referenced once is held by this collection alone. */
    lemma HoldersWhenUnique()
      requires Valid() && IsKnownUniquelyReferenced()
      ensures data.holders == {this}
    {
      assert |data.holders - {this}| == |data.holders| - 1;
      assert data.holders - {this} == {};
    }

    /** Hence no other valid collection shares a uniquely referenced storage. */
    lemma SoleHolder(c: IOSCollection<T>)
      requires Valid() && IsKnownUniquelyReferenced()
      requires c.Valid() && c.data == data
      ensures c == this
    {
      HoldersWhenUnique();
    }

    /** `init(data: NSMutableArray)`: shares the given storage, no copy. */
    constructor FromStorage(s: Storage<T>)
      requires s.Valid()
      modifies s
      ensures Valid() && data == s
      ensures s.elems == old(s.elems)
      ensures s.refCount == old(s.refCount) + 1 && s.holders == old(s.holders) + {this}
      ensures forall c: IOSCollection<T> :: old(allocated(c)) && old(c.Valid()) ==>
        c.Valid() && c.data == old(c.data) && c.Elements() == old(c.Elements())
    {
      data := s;
      new;
      s.Retain(this);
    }

    /** `init(data: IOSCollection)`: shares the other collection's storage, no copy. */
    constructor FromCollection(other: IOSCollection<T>)
      requires other.Valid()
      modifies other.data
      ensures Valid() && data == other.data
      ensures Elements() == old(other.Elements())
      ensures data.refCount == old(other.data.refCount) + 1
      ensures data.holders == old(other.data.holders) + {this}
      ensures forall c: IOSCollection<T> :: old(allocated(c)) && old(c.Valid()) ==>
        c.Valid() && c.data == old(c.data) && c.Elements() == old(c.Elements())
    {
      data := other.data;
      new;
      data.Retain(this);
    }

    /** The rebinding half of `copy()`: `data = data.mutableCopy()`. */
    method Detach()
      requires Valid()
      modifies this, data
      ensures Valid() && fresh(data)
      ensures Elements() == old(Elements())
      ensures data.refCount == 1 && data.holders == {this}
      ensures old(data).elems == old(data.elems)
      ensures old(data).refCount == old(data.refCount) - 1
      ensures old(data).holders == old(data.holders) - {this}
      ensures forall c: IOSCollection<T> :: old(allocated(c)) && c != this && old(c.Valid()) ==>
        c.Valid() && c.data == old(c.data) && c.Elements() == old(c.Elements())
    {
      var copied := data.MutableCopy(this);
      data.Release(this);
      data := copied;
    }

    /** `copy()`: moves this collection onto a fresh copy of its storage and
        returns a second collection sharing that copy. */
    method Copy() returns (r: IOSCollection<T>)
      requires Valid()
      modifies this, data
      ensures Valid() && r.Valid() && fresh(data) && fresh(r)
      ensures r.data == data && Elements() == old(Elements())
      ensures data.refCount == 2 && data.holders == {this, r}
      ensures old(data).elems == old(data.elems)
      ensures old(data).refCount == old(data.refCount) - 1
      ensures old(data).holders == old(data.holders) - {this}
      ensures forall c: IOSCollection<T> :: old(allocated(c)) && c != this && old(c.Valid()) ==>
        c.Valid() && c.data == old(c.data) && c.Elements() == old(c.Elements())
    {
      Detach();
      r := new IOSCollection.FromCollection(this);
    }

    /** `append(elem:)`: copy first unless the storage is uniquely referenced,
        then add. `self = self.copy()` rebinds `data` and drops the temporary
        returned by `copy()`, which is exactly `Detach()`. */
    method Append(x: T)
      requires Valid()
      modifies this, data
      ensures Valid()
      ensures Elements() == old(Elements()) + [x]
      ensures data == old(data) <==> old(IsKnownUniquelyReferenced())
      ensures data != old(data) ==> fresh(data)
      ensures data != old(data) ==> old(data).elems == old(data.elems)
      ensures data != old(data) ==> old(data).refCount == old(data.refCount) - 1
      ensures data != old(data) ==> old(data).holders == old(data.holders) - {this}
      ensures data.refCount == 1 && data.holders == {this}
      ensures forall c: IOSCollection<T> :: old(allocated(c)) && c != this && old(c.Valid()) ==>
        c.Valid() && c.data == old(c.data) && c.Elements() == old(c.Elements())
    {
      if !IsKnownUniquelyReferenced() {
        Detach();
      } else {
        HoldersWhenUnique();
      }
      data.Add(x);
    }

    /** `appendWOCopy(elem:)`: adds to the shared storage directly, so every
        collection holding it sees the new element. */
    method AppendWithoutCopy(x: T)
      requires Valid()
      modifies data
      ensures Valid() && data == old(data)
      ensures Elements() == old(Elements()) + [x]
      ensures data.refCount == old(data.refCount) && data.holders == old(data.holders)
      ensures forall c: IOSCollection<T> :: old(allocated(c)) && c.data == data ==>
        c.Elements() == old(c.Elements()) + [x]
      ensures forall c: IOSCollection<T> :: old(allocated(c)) && c.data != data ==>
        c.Elements() == old(c.Elements())
      ensures forall c: IOSCollection<T> :: old(allocated(c)) && old(c.Valid()) ==> c.Valid()
    {
      data.Add(x);
    }
  }

  /** The first half of the demonstration: two collections built on one
      array, then a write without copy through the second. Both still share
      the array and both show the new element. The variable `arr` keeps its
      own reference, so the array is held three times. */
  method WriteThroughScenario() returns (arr: Storage<string>, coll1: IOSCollection<string>, coll2: IOSCollection<string>)
    ensures fresh(arr) && fresh(coll1) && fresh(coll2)
    ensures coll1.Valid() && coll2.Valid() && coll1 != coll2
    ensures coll1.data == arr && coll2.data == arr && arr.refCount == 3
    ensures coll1.Elements() == ["IOSv1", "IOSv2", "IOSv3"]
    ensures coll2.Elements() == ["IOSv1", "IOSv2", "IOSv3"]
  {
    arr := new Storage();
    arr.Add("IOSv1");
    arr.Add("IOSv2");
    coll1 := new IOSCollection.FromStorage(arr);
    coll2 := new IOSCollection.FromStorage(arr);
    coll2.AppendWithoutCopy("IOSv3");
  }

  /** The whole demonstration: after the write without copy, the
      copy-on-write append through the second collection separates the two. */
  method Scenario() returns (arr: Storage<string>, coll1: IOSCollection<string>, coll2: IOSCollection<string>)
    ensures coll1.Valid() && coll2.Valid()
    ensures coll1.data == arr && coll2.data != arr
    ensures coll1.Elements() == ["IOSv1", "IOSv2", "IOSv3"]
    ensures coll2.Elements() == ["IOSv1", "IOSv2", "IOSv3", "IOSv4"]
  {
    arr, coll1, coll2 := WriteThroughScenario();
    coll2.Append("IOSv4");
  }
}
