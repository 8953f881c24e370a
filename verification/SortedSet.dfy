/** The set with a cached first and last element that the sticky assignor keeps its
    consumers in (sorted_set.py). */
module SortedSets {
  import opened Types

  /** What an element is ordered by: a size, then a name given by its rank. */
  datatype Key = Key(size: int, name: int)

  predicate Less(a: Key, b: Key) {
    a.size < b.size || (a.size == b.size && a.name < b.name)
  }

  ghost predicate IsFirst<T(!new)>(elements: set<T>, key: T -> Key, x: T) {
    x in elements && forall y :: y in elements ==> !Less(key(y), key(x))
  }

  ghost predicate IsLast<T(!new)>(elements: set<T>, key: T -> Key, x: T) {
    x in elements && forall y :: y in elements ==> !Less(key(x), key(y))
  }

  ghost predicate InOrder<T(!new)>(s: seq<T>, key: T -> Key) {
    forall i, j :: 0 <= i < j < |s| ==> !Less(key(s[j]), key(s[i]))
  }

  /** The source's scan for a smallest element; `None` when there is none. */
  method ScanFirst<T(==,!new)>(elements: set<T>, key: T -> Key) returns (first: Option<T>)
    ensures first.None? <==> elements == {}
    ensures first.Some? ==> IsFirst(elements, key, first.value)
  {
    first := None;
    var todo := elements;
    while todo != {}
      invariant todo <= elements
      invariant first.None? <==> todo == elements
      invariant first.Some? ==> IsFirst(elements - todo, key, first.value)
      decreases |todo|
    {
      var element :| element in todo;
      if first.None? || Less(key(element), key(first.value)) {
        first := Some(element);
      }
      todo := todo - {element};
    }
  }

  method ScanLast<T(==,!new)>(elements: set<T>, key: T -> Key) returns (last: Option<T>)
    ensures last.None? <==> elements == {}
    ensures last.Some? ==> IsLast(elements, key, last.value)
  {
    last := None;
    var todo := elements;
    while todo != {}
      invariant todo <= elements
      invariant last.None? <==> todo == elements
      invariant last.Some? ==> IsLast(elements - todo, key, last.value)
      decreases |todo|
    {
      var element :| element in todo;
      if last.None? || Less(key(last.value), key(element)) {
        last := Some(element);
      }
      todo := todo - {element};
    }
  }

  class SortedSet<T(==,!new)> {
    const key: T -> Key
    var elements: set<T>
    var cachedFirst: Option<T>
    var cachedLast: Option<T>

    /** A cached element is a first, or a last, element of the set. */
    ghost predicate Valid()
      reads this
    {
      && (cachedFirst.Some? ==> IsFirst(elements, key, cachedFirst.value))
      && (cachedLast.Some? ==> IsLast(elements, key, cachedLast.value))
    }

    constructor (elements: set<T>, key: T -> Key)
      ensures Valid() && this.elements == elements && this.key == key
      ensures cachedFirst == None && cachedLast == None
    {
      this.elements, this.key := elements, key;
      cachedFirst, cachedLast := None, None;
    }

    method First() returns (first: Option<T>)
      requires Valid()
      modifies this`cachedFirst
      ensures Valid()
      ensures first.None? <==> elements == {}
      ensures first.Some? ==> IsFirst(elements, key, first.value)
    {
      if cachedFirst.Some? {
        return cachedFirst;
      }
      first := ScanFirst(elements, key);
      cachedFirst := first;
    }

    method Last() returns (last: Option<T>)
      requires Valid()
      modifies this`cachedLast
      ensures Valid()
      ensures last.None? <==> elements == {}
      ensures last.Some? ==> IsLast(elements, key, last.value)
    {
      if cachedLast.Some? {
        return cachedLast;
      }
      last := ScanLast(elements, key);
      cachedLast := last;
    }

    /** Takes a last element out; `None` stands for the KeyError of an empty set. Only the
        last cache is reset, so the set is sound afterwards exactly when the element taken
        was not also cached as the first. */
    method PopLast() returns (last: Option<T>)
      requires Valid()
      modifies this`elements, this`cachedLast
      ensures last.None? <==> old(elements) == {}
      ensures last.None? ==> elements == old(elements) && Valid()
      ensures last.Some? ==> IsLast(old(elements), key, last.value) && elements == old(elements) - {last.value}
      ensures last.Some? ==> (Valid() <==> old(cachedFirst) != last)
    {
      last := Last();
      if last.Some? {
        elements := elements - {last.value};
        cachedLast := None;
      }
    }

    method Add(value: T)
      requires Valid()
      modifies this`elements, this`cachedFirst, this`cachedLast
      ensures Valid() && elements == old(elements) + {value}
      ensures old(cachedFirst) == None ==> cachedFirst == None
    {
      if cachedLast.Some? && Less(key(cachedLast.value), key(value)) {
        cachedLast := Some(value);
      }
      if cachedFirst.Some? && Less(key(value), key(cachedFirst.value)) {
        cachedFirst := Some(value);
      }
      elements := elements + {value};
    }

    /** Takes `value` out; `false` stands for the KeyError of an absent value. */
    method Remove(value: T) returns (found: bool)
      requires Valid()
      modifies this`elements, this`cachedFirst, this`cachedLast
      ensures Valid() && elements == old(elements) - {value}
      ensures found <==> value in old(elements)
    {
      if cachedLast == Some(value) {
        cachedLast := None;
      }
      if cachedFirst == Some(value) {
        cachedFirst := None;
      }
      found := value in elements;
      elements := elements - {value};
    }

    /** The elements in ascending order of their keys. */
    method Ascending() returns (s: seq<T>)
      ensures InOrder(s, key)
      ensures forall x :: x in s <==> x in elements
      ensures |s| == |elements|
    {
      s := [];
      var todo := elements;
      while todo != {}
        invariant todo <= elements
        invariant |s| + |todo| == |elements|
        invariant forall x :: x in s <==> x in elements - todo
        invariant InOrder(s, key)
        invariant forall x, y :: x in s && y in todo ==> !Less(key(y), key(x))
        decreases |todo|
      {
        var next := ScanFirst(todo, key);
        s := s + [next.value];
        todo := todo - {next.value};
      }
    }
  }
}
