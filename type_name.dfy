/**
 * `type_name<T>()` and `type_name(t)` (include/type_name.hpp): the name of a type, cut out of the
 * compiler's spelling of a function signature that mentions it. That spelling,
 * `wrapped_type_name<T>()`, is a parameter `wrapped` from types to strings; the known type `void`
 * locates where the name starts and how much follows it.
 */
module TypeName {
  import opened Results

  /** The C++ types as far as `type_name(T&&)` needs them: references are told apart from the rest. */
  datatype CType = Void | Named(name: string) | LRef(referent: CType) | RRef(referent: CType)

  const VoidText: string := "void"

  /** `pat` occurs in `s` at position `j`. */
  predicate OccursAt(s: string, pat: string, j: nat) {
    j + |pat| <= |s| && s[j..j + |pat|] == pat
  }

  /** string_view::find(pat, i): the first position at or after `i` where `pat` occurs, if any (npos otherwise). */
  function FindFrom(s: string, pat: string, i: nat): (r: Option<nat>)
    requires i <= |s|
    ensures r.Some? ==> i <= r.value && OccursAt(s, pat, r.value)
    ensures r.Some? ==> forall j :: i <= j < r.value ==> !OccursAt(s, pat, j)
    ensures r.None? ==> forall j :: i <= j <= |s| ==> !OccursAt(s, pat, j)
    decreases |s| - i
  {
    if OccursAt(s, pat, i) then Some(i)
    else if i == |s| then None
    else FindFrom(s, pat, i + 1)
  }

  function Find(s: string, pat: string): (r: Option<nat>) {
    FindFrom(s, pat, 0)
  }

  /** `void` occurs in the spelling for `void`, so the prefix size is defined. */
  predicate Locatable(wrapped: CType -> string) {
    Find(wrapped(Void), VoidText).Some?
  }

  /** prefix_size: where `void` first occurs in the spelling for `void`. */
  function PrefixSize(wrapped: CType -> string): (n: nat)
    requires Locatable(wrapped)
    ensures OccursAt(wrapped(Void), VoidText, n)
    ensures forall j :: 0 <= j < n ==> !OccursAt(wrapped(Void), VoidText, j)
  {
    Find(wrapped(Void), VoidText).value
  }

  /** suffix_size: what follows that `void`. */
  function SuffixSize(wrapped: CType -> string): (n: nat)
    requires Locatable(wrapped)
    ensures PrefixSize(wrapped) + |VoidText| + n == |wrapped(Void)|
  {
    |wrapped(Void)| - PrefixSize(wrapped) - |VoidText|
  }

  /** remove_prefix and remove_suffix are defined on the spelling for `t`: it is long enough for both cuts. */
  predicate Trimmable(wrapped: CType -> string, t: CType) {
    Locatable(wrapped) && PrefixSize(wrapped) + SuffixSize(wrapped) <= |wrapped(t)|
  }

  /** type_name<T>(): the spelling for `t` with prefix_size characters removed in front and suffix_size behind. */
  function TypeNameOf(wrapped: CType -> string, t: CType): (name: string)
    requires Trimmable(wrapped, t)
    ensures |name| == |wrapped(t)| - PrefixSize(wrapped) - SuffixSize(wrapped)
    ensures name == wrapped(t)[PrefixSize(wrapped)..|wrapped(t)| - SuffixSize(wrapped)]
  {
    var view := wrapped(t)[PrefixSize(wrapped)..];
    view[..|view| - SuffixSize(wrapped)]
  }

  /**
   * When the spelling of every type `x` is `p + spell(x) + s`, `void` is spelt "void", and "void"
   * does not occur in `p + "voi"`, the cuts are defined for every type and type_name<T>() is
   * exactly the spelling of `t`.
   */
  lemma TypeNameExact(wrapped: CType -> string, spell: CType -> string, p: string, s: string, t: CType)
    requires forall x :: wrapped(x) == p + spell(x) + s
    requires spell(Void) == VoidText
    requires forall j :: 0 <= j <= |p| ==> !OccursAt(p + "voi", VoidText, j)
    ensures Trimmable(wrapped, t)
    ensures TypeNameOf(wrapped, t) == spell(t)
  {
    var w := wrapped(Void);
    assert w == p + VoidText + s;
    assert OccursAt(w, VoidText, |p|) by {
      assert w[|p|..|p| + 4] == VoidText;
    }
    forall j | 0 <= j < |p|
      ensures !OccursAt(w, VoidText, j)
    {
      var q := p + "voi";
      assert !OccursAt(q, VoidText, j) && j + 4 <= |q|;
      assert forall k :: j <= k < j + 4 ==> w[k] == q[k];
      assert w[j..j + 4] == q[j..j + 4];
    }
    var r := FindFrom(w, VoidText, 0);
    assert r.Some? && r.value == |p|;
    assert PrefixSize(wrapped) == |p| && SuffixSize(wrapped) == |s|;
    var u := wrapped(t);
    assert u == p + spell(t) + s;
    assert u[|p|..|u| - |s|] == spell(t);
  }

  /** T&& with T already a reference type: `& &&` collapses to `&`, `&& &&` to `&&`. */
  function RvalueRefTo(t: CType): (r: CType)
    ensures r.LRef? || r.RRef?
    ensures r.LRef? <==> t.LRef?
    ensures r.LRef? || t.RRef? ==> r == t
    ensures !t.LRef? && !t.RRef? ==> r.referent == t
  {
    match t
    case LRef(_) => t
    case RRef(_) => t
    case _ => RRef(t)
  }

  /** Collapsing is idempotent: `&&` applied to a reference type that has already been collapsed changes nothing. */
  lemma RvalueRefIdempotent(t: CType)
    ensures RvalueRefTo(RvalueRefTo(t)) == RvalueRefTo(t)
  {
    var r := RvalueRefTo(t);
    assert r.LRef? || r.RRef?;
  }

  /**
   * decltype(t) for the parameter `T&& t` bound to an expression of non-reference type `u`: T is
   * deduced as `u&` for an lvalue and `u` for an rvalue, then the reference is collapsed.
   */
  function ForwardedType(u: CType, lvalue: bool): (r: CType)
    ensures !u.LRef? && !u.RRef? ==> r == (if lvalue then LRef(u) else RRef(u))
  {
    RvalueRefTo(if lvalue then LRef(u) else u)
  }

  /** type_name(t): the name of decltype(t), so an lvalue argument is named as an lvalue reference. */
  function TypeNameOfValue(wrapped: CType -> string, u: CType, lvalue: bool): (name: string)
    requires Trimmable(wrapped, ForwardedType(u, lvalue))
    ensures !u.LRef? && !u.RRef? ==> name == TypeNameOf(wrapped, if lvalue then LRef(u) else RRef(u))
  {
    TypeNameOf(wrapped, ForwardedType(u, lvalue))
  }
}
