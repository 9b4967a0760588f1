/** Slices and pointers on the heap: a nil one is a null reference. */
module GoSlices {
  import opened Text
  import opened GoTypes

  /** What a pointer inside a struct points to; nobody here writes to it. */
  class Cell<T> {
    const value: T

    constructor (value: T)
      ensures this.value == value
    {
      this.value := value;
    }
  }

  function Pointed<T>(p: Cell?<T>): Option<T> {
    if p == null then None else Some(p.value)
  }

  method CopyPointer<T>(p: Cell?<T>) returns (copy: Cell?<T>)
    ensures Pointed(copy) == Pointed(p)
    ensures copy == null || fresh(copy)
  {
    if p == null {
      return null;
    }
    copy := new Cell(p.value);
  }

  method PointerTo<T>(value: Option<T>) returns (p: Cell?<T>)
    ensures Pointed(p) == value
  {
    match value
    case None => p := null;
    case Some(v) => p := new Cell(v);
  }

  function ListView<T>(a: array?<T>): GoList<T>
    reads a
  {
    if a == null then Nil else List(a[..])
  }

  /** A copy with storage of its own; nil stays nil. */
  method CopySlice<T(0)>(a: array?<T>) returns (copy: array?<T>)
    ensures ListView(copy) == ListView(a)
    ensures copy == null || fresh(copy)
  {
    if a == null {
      return null;
    }
    copy := new T[a.Length];
    for i := 0 to a.Length
      invariant copy[..i] == a[..i]
    {
      copy[i] := a[i];
    }
    assert copy[..] == copy[..a.Length] && a[..] == a[..a.Length];
  }

  /** `reflect.DeepEqual` of two slices: nil differs from empty. */
  method DeepEqualSlices<T(==)>(a: array?<T>, b: array?<T>) returns (same: bool)
    ensures same == (ListView(a) == ListView(b))
  {
    same := if a == null || b == null then a == null && b == null else a[..] == b[..];
  }

  /** The slice of a decoded object. */
  method SliceOf<T(0)>(l: GoList<T>) returns (a: array?<T>)
    ensures ListView(a) == l && (a != null ==> fresh(a))
  {
    match l
    case Nil => a := null;
    case List(items) =>
      var copy := new T[|items|];
      for i := 0 to |items|
        invariant copy[..i] == items[..i]
      {
        copy[i] := items[i];
      }
      assert copy[..] == copy[..|items|] && items == items[..|items|];
      a := copy;
  }
}
