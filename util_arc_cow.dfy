// ArcCow: a value that is either borrowed or shared through a reference
// count. Sharing identity is outside the model; an Arc is the value it
// holds, so every operation is stated on the dereferenced value.

module UtilArcCow {
  datatype Arc<T> = Arc(contents: T)

  datatype ArcCow<T> = Borrowed(borrowed: T) | Owned(owned: Arc<T>)

  datatype Ordering = Less | Equal | Greater

  /// The value behind either variant.
  function Deref<T>(c: ArcCow<T>): (r: T)
    ensures c.Borrowed? ==> r == c.borrowed
    ensures c.Owned? ==> r == c.owned.contents
  {
    match c
    case Borrowed(b) => b
    case Owned(o) => o.contents
  }

  /// `AsRef` and `Borrow` are two trait entry points onto `deref`.
  function AsRef<T>(c: ArcCow<T>): (r: T)
    ensures c.Borrowed? ==> r == c.borrowed
    ensures c.Owned? ==> r == c.owned.contents
  {
    Deref(c)
  }

  function Borrow<T>(c: ArcCow<T>): (r: T)
    ensures c.Borrowed? ==> r == c.borrowed
    ensures c.Owned? ==> r == c.owned.contents
  {
    Deref(c)
  }

  /// A clone has the same variant and the same value.
  function Clone<T>(c: ArcCow<T>): (r: ArcCow<T>)
    ensures r.Borrowed? <==> c.Borrowed?
    ensures Deref(r) == Deref(c)
  {
    match c
    case Borrowed(b) => Borrowed(b)
    case Owned(o) => Owned(Arc(o.contents))
  }

  /// Equality compares the dereferenced values, whatever the variants.
  function Eq<T(==)>(a: ArcCow<T>, b: ArcCow<T>): (r: bool)
    ensures r <==> Deref(a) == Deref(b)
  {
    Deref(a) == Deref(b)
  }

  /// Ordering and hashing delegate to the value's own `cmp` and `hash`.
  function Cmp<T>(a: ArcCow<T>, b: ArcCow<T>, cmp: (T, T) -> Ordering): (r: Ordering)
    ensures r == cmp(Deref(a), Deref(b))
  {
    cmp(Deref(a), Deref(b))
  }

  function Hash<T>(c: ArcCow<T>, hash: T -> int): (r: int)
    ensures c.Owned? ==> r == hash(c.owned.contents)
    ensures c.Borrowed? ==> r == hash(c.borrowed)
  {
    hash(Deref(c))
  }

  /// A borrowed value equals the same value shared, compares Equal to it
  /// when the value's own order is reflexive, and hashes the same, so
  /// equal ArcCows always hash equally.
  lemma BorrowedMatchesOwned<T>(x: T, cmp: (T, T) -> Ordering, hash: T -> int)
    requires cmp(x, x) == Equal
    ensures Eq(Borrowed(x), Owned(Arc(x)))
    ensures Cmp(Borrowed(x), Owned(Arc(x)), cmp) == Equal
    ensures Hash(Borrowed(x), hash) == Hash(Owned(Arc(x)), hash)
  {
  }

  /// Both views give the value `deref` gives, and borrowing that value
  /// again, or cloning, yields an ArcCow equal to the original.
  lemma ReferencesAgree<T>(c: ArcCow<T>)
    ensures AsRef(c) == Borrow(c) == Deref(c)
    ensures Eq(FromRef(AsRef(c)), c) && Eq(FromRef(Borrow(c)), c)
    ensures Eq(Clone(c), c)
  {
  }

  /// Equality is an equivalence relation whatever the variants, so `Eq`
  /// may be derived; borrowed and owned forms of one value are equal.
  lemma EqEquivalence<T>(a: ArcCow<T>, b: ArcCow<T>, c: ArcCow<T>)
    ensures Eq(a, a)
    ensures Eq(a, b) <==> Eq(b, a)
    ensures Eq(a, b) && Eq(b, c) ==> Eq(a, c)
  {
  }

  /// When the value's own order agrees with its equality and is
  /// antisymmetric, so is the ArcCow's: `Ord` and `Eq` stay consistent.
  lemma CmpAgreesWithEq<T>(a: ArcCow<T>, b: ArcCow<T>, cmp: (T, T) -> Ordering)
    requires forall x, y :: cmp(x, y) == Equal <==> x == y
    requires forall x, y :: cmp(x, y) == Less <==> cmp(y, x) == Greater
    ensures Cmp(a, b, cmp) == Equal <==> Eq(a, b)
    ensures Cmp(a, b, cmp) == Less <==> Cmp(b, a, cmp) == Greater
  {
  }

  lemma EqualHashEqual<T>(a: ArcCow<T>, b: ArcCow<T>, hash: T -> int)
    requires Eq(a, b)
    ensures Hash(a, hash) == Hash(b, hash)
  {
  }

  /// `From<&T>` borrows; `From<Arc<T>>` and `From<String>` own.
  function FromRef<T>(value: T): (r: ArcCow<T>)
    ensures r.Borrowed? && Deref(r) == value
  {
    Borrowed(value)
  }

  function FromArc<T>(value: Arc<T>): (r: ArcCow<T>)
    ensures r.Owned? && r.owned == value
  {
    Owned(value)
  }

  function FromString(value: string): (r: ArcCow<string>)
    ensures r.Owned? && Deref(r) == value
  {
    Owned(Arc(value))
  }
}
