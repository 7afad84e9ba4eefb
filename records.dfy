/** The recipe record shared by every screen, and the order-preserving
    filter (JavaScript's `Array.prototype.filter`) that the screens apply
    to their in-memory lists. */
module Records {

  datatype Option<T> = None | Some(value: T)

  /** A module number handed out by the bundler for `require("…")`; the
      asset registry numbers them from 1, so a handle is never falsy. */
  type AssetId = h: int | 1 <= h witness 1

  /** The `image` field: absent or null, a string (a local file path or a
      URL), or a bundled asset. */
  datatype Image = NoImage | Str(s: string) | Asset(handle: AssetId)

  /** What React Native's `<Image source=…>` receives. */
  datatype ImageSource = Uri(uri: string) | Bundled(handle: AssetId)

  /** A recipe as the add screen writes it. Optional text fields that are
      missing from a stored object are represented by "" (both are falsy). */
  datatype Recipe = Recipe(
    id: string,
    title: string,
    image: Image,
    category: string,
    ingredients: string,
    instructions: string,
    temperature: string,
    time: string)

  /** JavaScript truthiness of an `image` value. */
  function Truthy(image: Image): (truthy: bool)
    ensures !truthy <==> image == NoImage || image == Str("")
  {
    match image
    case NoImage => false
    case Str(s) => s != ""
    case Asset(_) => true
  }

  /** Every field the add screen insists on is non-empty. */
  predicate HasRequiredFields(r: Recipe)
  {
    r.title != "" && r.category != "" && r.ingredients != "" &&
    r.instructions != "" && r.temperature != "" && r.time != ""
  }

  /** `s.filter(p)`: the elements of `s` that satisfy `p`, in order. */
  function Filter<T(==,!new)>(s: seq<T>, p: T -> bool): (r: seq<T>)
    ensures |r| <= |s|
    ensures forall x :: x in r <==> x in s && p(x)
  {
    if s == [] then []
    else
      var rest := Filter(s[1..], p);
      if p(s[0]) then [s[0]] + rest else rest
  }

  /** `a` is `b` with some elements dropped and the rest kept in order. */
  ghost predicate IsSubsequence<T>(a: seq<T>, b: seq<T>)
  {
    if a == [] then true
    else if b == [] then false
    else (a[0] == b[0] && IsSubsequence(a[1..], b[1..])) || IsSubsequence(a, b[1..])
  }

  lemma {:induction false} SubsequenceReflexive<T>(s: seq<T>)
    ensures IsSubsequence(s, s)
  {
    if s != [] {
      SubsequenceReflexive(s[1..]);
    }
  }

  /** The filter keeps the relative order of what it keeps. */
  lemma {:induction false} FilterIsSubsequence<T(!new)>(s: seq<T>, p: T -> bool)
    ensures IsSubsequence(Filter(s, p), s)
  {
    if s != [] {
      FilterIsSubsequence(s[1..], p);
    }
  }

  /** The filter keeps every copy of an element that passes and no copy of
      one that fails. */
  lemma {:induction false} FilterCounts<T(!new)>(s: seq<T>, p: T -> bool)
    ensures forall x :: multiset(Filter(s, p))[x] == if p(x) then multiset(s)[x] else 0
  {
    if s != [] {
      FilterCounts(s[1..], p);
      assert s == [s[0]] + s[1..];
    }
  }

  /** Filtering a list whose every element passes gives the list back. */
  lemma {:induction false} FilterAllPass<T(!new)>(s: seq<T>, p: T -> bool)
    requires forall i :: 0 <= i < |s| ==> p(s[i])
    ensures Filter(s, p) == s
  {
    if s != [] {
      FilterAllPass(s[1..], p);
      assert s == [s[0]] + s[1..];
    }
  }

  /** `list.filter((r) => r.id !== id)`, the removal both list screens use. */
  function RemoveById(s: seq<Recipe>, id: string): (r: seq<Recipe>)
    ensures forall x :: x in r <==> x in s && x.id != id
    ensures forall x :: multiset(r)[x] == if x.id != id then multiset(s)[x] else 0
    ensures IsSubsequence(r, s)
  {
    var keep := (x: Recipe) => x.id != id;
    FilterCounts(s, keep);
    FilterIsSubsequence(s, keep);
    Filter(s, keep)
  }

  /** Removing an id that no element carries changes nothing. */
  lemma RemoveAbsentId(s: seq<Recipe>, id: string)
    requires forall i :: 0 <= i < |s| ==> s[i].id != id
    ensures RemoveById(s, id) == s
  {
    FilterAllPass(s, (x: Recipe) => x.id != id);
  }

  /** A second removal of the same id is a no-op. */
  lemma RemoveIdempotent(s: seq<Recipe>, id: string)
    ensures RemoveById(RemoveById(s, id), id) == RemoveById(s, id)
  {
    var once := RemoveById(s, id);
    assert forall i :: 0 <= i < |once| ==> once[i] in once;
    RemoveAbsentId(once, id);
  }
}
