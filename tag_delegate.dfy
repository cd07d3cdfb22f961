/**
 * The tag delegate: a long-lived tag object that resolves its contents
 * lazily against whatever tag container (TagGroup) is current, and keeps
 * the last (container, tag) pair as a cache.
 *
 * Containers are compared by identity in the source; here a container is
 * a value of the type parameter `C` and identity is equality on `C`.
 * The container supplier becomes the `current` parameter of each read,
 * and `TagGroup.getTagOrEmpty` is the function `getTagOrEmpty` that the
 * delegate is created with.
 */
module TagExtension {
  import opened Common

  /** A resolved tag: the elements it lists, in order. */
  datatype Tag<T> = Tag(values: seq<T>)

  /** `Tag.contains`: an element belongs to a tag when the tag lists it. */
  predicate Includes<T(==)>(tag: Tag<T>, x: T) {
    x in tag.values
  }

  /** The immutable holder of the container a tag was computed from and that tag. */
  datatype Target<C, T> = Target(container: C, tag: Tag<T>)

  /** Java's `int`. */
  newtype int32 = x: int | -0x8000_0000 <= x < 0x8000_0000

  /** The raw id `Registry.getRawId` gives an object the registry does not hold. */
  const ABSENT_RAW_ID: int := -1

  /** The cache invariant: a cached tag is the one its container gives for `id`. */
  ghost predicate Coherent<C, T>(getTagOrEmpty: (C, Identifier) -> Tag<T>, id: Identifier,
                                 target: Option<Target<C, T>>)
  {
    target.Some? ==> target.value.tag == getTagOrEmpty(target.value.container, id)
  }

  /** The cached pair is still usable: it was computed from the very same container. */
  predicate Hit<C(==), T>(target: Option<Target<C, T>>, current: C) {
    target.Some? && target.value.container == current
  }

  /** The container the cache was last filled from, if any. */
  function CachedContainer<C, T>(target: Option<Target<C, T>>): Option<C> {
    if target.Some? then Some(target.value.container) else None
  }

  /**
   * One call of `getTag` with `current` as the supplier's container:
   * the tag it returns and the cached pair it leaves behind.
   */
  function Lookup<C(==), T>(getTagOrEmpty: (C, Identifier) -> Tag<T>, id: Identifier,
                            target: Option<Target<C, T>>, current: C): (r: (Tag<T>, Option<Target<C, T>>))
    // whatever the cache held, afterwards it holds the current container and the returned tag
    ensures r.1 == Some(Target(current, r.0))
    // on a hit nothing is recomputed and the cache is left as it was
    ensures Hit(target, current) ==> r.0 == target.value.tag && r.1 == target
    // on a miss the tag is recomputed from the current container
    ensures !Hit(target, current) ==> r.0 == getTagOrEmpty(current, id)
    // with the invariant, both paths return the current container's tag and keep the invariant
    ensures Coherent(getTagOrEmpty, id, target) ==>
              r.0 == getTagOrEmpty(current, id) && Coherent(getTagOrEmpty, id, r.1)
  {
    if Hit(target, current) then
      (target.value.tag, target)
    else
      var tag := getTagOrEmpty(current, id);
      (tag, Some(Target(current, tag)))
  }

  /** A series of reads, one per container the supplier returns: the tags returned and the final cache. */
  function Reads<C(==), T>(getTagOrEmpty: (C, Identifier) -> Tag<T>, id: Identifier,
                           target: Option<Target<C, T>>, cs: seq<C>): (r: (seq<Tag<T>>, Option<Target<C, T>>))
    ensures |r.0| == |cs|
    ensures cs == [] ==> r.1 == target
    ensures cs != [] ==> r.1 == Some(Target(cs[|cs| - 1], r.0[|cs| - 1]))
    decreases |cs|
  {
    if cs == [] then
      ([], target)
    else
      var (tag, next) := Lookup(getTagOrEmpty, id, target, cs[0]);
      var (rest, last) := Reads(getTagOrEmpty, id, next, cs[1..]);
      ([tag] + rest, last)
  }

  /** How many reads of a series recompute the tag (miss the cache). */
  function Misses<C(==), T>(getTagOrEmpty: (C, Identifier) -> Tag<T>, id: Identifier,
                            target: Option<Target<C, T>>, cs: seq<C>): nat
    decreases |cs|
  {
    if cs == [] then 0
    else
      (if Hit(target, cs[0]) then 0 else 1)
        + Misses(getTagOrEmpty, id, Lookup(getTagOrEmpty, id, target, cs[0]).1, cs[1..])
  }

  /** Independent count of container changes: how often the supplied container differs from the one before it. */
  function Changes<C(==)>(previous: Option<C>, cs: seq<C>): nat
    decreases |cs|
  {
    if cs == [] then 0
    else (if previous == Some(cs[0]) then 0 else 1) + Changes(Some(cs[0]), cs[1..])
  }

  /** Every read of a series returns the tag of the container current at that read, and the invariant survives. */
  lemma {:induction false} EveryReadIsCurrent<C, T>(getTagOrEmpty: (C, Identifier) -> Tag<T>, id: Identifier,
                                                       target: Option<Target<C, T>>, cs: seq<C>)
    requires Coherent(getTagOrEmpty, id, target)
    ensures forall i :: 0 <= i < |cs| ==> Reads(getTagOrEmpty, id, target, cs).0[i] == getTagOrEmpty(cs[i], id)
    ensures Coherent(getTagOrEmpty, id, Reads(getTagOrEmpty, id, target, cs).1)
    decreases |cs|
  {
    if cs != [] {
      var next := Lookup(getTagOrEmpty, id, target, cs[0]).1;
      EveryReadIsCurrent(getTagOrEmpty, id, next, cs[1..]);
      var rs := Reads(getTagOrEmpty, id, target, cs).0;
      var rest := Reads(getTagOrEmpty, id, next, cs[1..]).0;
      assert rs == [Lookup(getTagOrEmpty, id, target, cs[0]).0] + rest;
      forall i | 0 <= i < |cs| ensures rs[i] == getTagOrEmpty(cs[i], id) {
        if i > 0 {
          assert rs[i] == rest[i - 1] && cs[i] == cs[1..][i - 1];
        }
      }
    }
  }

  /** The tag is recomputed exactly when the supplier's container is not the one last cached. */
  lemma {:induction false} MissesAreContainerChanges<C, T>(getTagOrEmpty: (C, Identifier) -> Tag<T>, id: Identifier,
                                                              target: Option<Target<C, T>>, cs: seq<C>)
    ensures Misses(getTagOrEmpty, id, target, cs) == Changes(CachedContainer(target), cs)
    decreases |cs|
  {
    if cs != [] {
      var next := Lookup(getTagOrEmpty, id, target, cs[0]).1;
      assert CachedContainer(next) == Some(cs[0]);
      assert Hit(target, cs[0]) <==> CachedContainer(target) == Some(cs[0]);
      MissesAreContainerChanges(getTagOrEmpty, id, next, cs[1..]);
    }
  }

  lemma {:induction false} ChangesOfRepeats<C>(previous: Option<C>, c: C, cs: seq<C>)
    requires forall i :: 0 <= i < |cs| ==> cs[i] == c
    ensures Changes(previous, cs) <= 1
    ensures previous == Some(c) ==> Changes(previous, cs) == 0
    decreases |cs|
  {
    if cs != [] {
      ChangesOfRepeats(Some(c), c, cs[1..]);
    }
  }

  /**
   * Reading any number of times while the container stays the same recomputes
   * at most once, and not at all when that container is already cached.
   */
  lemma RepeatedReadsRecomputeAtMostOnce<C, T>(getTagOrEmpty: (C, Identifier) -> Tag<T>, id: Identifier,
                                                   target: Option<Target<C, T>>, c: C, cs: seq<C>)
    requires forall i :: 0 <= i < |cs| ==> cs[i] == c
    ensures Misses(getTagOrEmpty, id, target, cs) <= 1
    ensures Hit(target, c) ==> Misses(getTagOrEmpty, id, target, cs) == 0
  {
    MissesAreContainerChanges(getTagOrEmpty, id, target, cs);
    ChangesOfRepeats(CachedContainer(target), c, cs);
  }

  /**
   * `TagDelegate<T>`: the tag named `id`, resolved through `getTagOrEmpty`.
   * `staticRegistry` is the built-in registry's `getRawId`, or `None` when the
   * delegate has no static registry to guard against.
   */
  class TagDelegate<C(==), T(==)> {
    const id: Identifier
    const getTagOrEmpty: (C, Identifier) -> Tag<T>
    const staticRegistry: Option<T -> int>
    var target: Option<Target<C, T>>
    var clearCount: int32

    ghost predicate Valid()
      reads this
    {
      Coherent(getTagOrEmpty, id, target)
    }

    constructor (id: Identifier, getTagOrEmpty: (C, Identifier) -> Tag<T>, staticRegistry: Option<T -> int>)
      ensures Valid()
      ensures this.id == id && this.getTagOrEmpty == getTagOrEmpty && this.staticRegistry == staticRegistry
      ensures target == None && clearCount == 0
      ensures !HasBeenReplaced()
    {
      this.id := id;
      this.getTagOrEmpty := getTagOrEmpty;
      this.staticRegistry := staticRegistry;
      target := None;
      clearCount := 0;
    }

    /** `x` comes from the static registry although this tag is meant for a dynamic one. */
    predicate FromStaticRegistry(x: T) {
      staticRegistry.Some? && staticRegistry.value(x) != ABSENT_RAW_ID
    }

    /** `contains`: reject static-registry objects, otherwise ask the current tag. */
    method Contains(x: T, current: C) returns (r: Outcome<bool>)
      requires Valid()
      modifies this`target
      ensures Valid()
      ensures FromStaticRegistry(x) ==> r == Threw(ILLEGAL_ARGUMENT_EXCEPTION) && target == old(target)
      ensures !FromStaticRegistry(x) ==>
                && r == Returned(Includes(getTagOrEmpty(current, id), x))
                && target == Lookup(getTagOrEmpty, id, old(target), current).1
    {
      if staticRegistry.Some? && staticRegistry.value(x) != ABSENT_RAW_ID {
        return Threw(ILLEGAL_ARGUMENT_EXCEPTION);
      }
      var tag := GetTag(current);
      return Returned(Includes(tag, x));
    }

    /** `values`: the elements of the current container's tag. */
    method Values(current: C) returns (r: seq<T>)
      requires Valid()
      modifies this`target
      ensures Valid()
      ensures r == getTagOrEmpty(current, id).values
      ensures target == Lookup(getTagOrEmpty, id, old(target), current).1
    {
      var tag := GetTag(current);
      r := tag.values;
    }

    /** `getTag`: reuse the cached tag only when the container is the cached one. */
    method GetTag(current: C) returns (r: Tag<T>)
      requires Valid()
      modifies this`target
      ensures Valid()
      ensures (r, target) == Lookup(getTagOrEmpty, id, old(target), current)
      ensures r == getTagOrEmpty(current, id)
      ensures target == Some(Target(current, r))
    {
      var cached := target;
      if cached.None? || cached.value.container != current {
        r := getTagOrEmpty(current, GetId());
        target := Some(Target(current, r));
      } else {
        r := cached.value.tag;
      }
    }

    /** `getId`: the name given at construction; `id` is a constant field. */
    function GetId(): (r: Identifier)
      ensures r == id
    {
      id
    }

    /** `hasBeenReplaced`. */
    function HasBeenReplaced(): (r: bool)
      reads this
      ensures r <==> clearCount > 0
    {
      clearCount > 0
    }

    /** `fabric_setExtraData`: record the reload count supplied by the tag loader. */
    method SetExtraData(clearCount: int32)
      requires Valid()
      modifies this`clearCount
      ensures Valid()
      ensures this.clearCount == clearCount
      ensures HasBeenReplaced() <==> clearCount > 0
    {
      this.clearCount := clearCount;
    }
  }
}
