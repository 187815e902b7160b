/** Pro/con statements and the split of the server's statement list into
    the `pros` and `cons` the profile shows. The split is the same for the
    initial load, the refresh after a vote and the refresh after a new
    statement was submitted. */
module Statements {

  /** A statement as `GET /api/candidates/{id}/procons/` returns it; `kind`
      is the server's `type` field, normally "pro" or "con". */
  datatype Statement = Statement(
    id: nat,
    kind: string,
    content: string,
    likes: nat,
    dislikes: nat,
    trueVotes: nat,
    falseVotes: nat)

  const Pro: string := "pro"
  const Con: string := "con"

  /** `a` is `b` with some elements left out and the order kept. */
  ghost predicate IsSubsequence(a: seq<Statement>, b: seq<Statement>)
    decreases |b|
  {
    if a == [] then true
    else if b == [] then false
    else if a[0] == b[0] then IsSubsequence(a[1..], b[1..])
    else IsSubsequence(a, b[1..])
  }

  /** `items.filter(item => item.type === kind)`. */
  function FilterByType(items: seq<Statement>, kind: string): (r: seq<Statement>)
    ensures |r| <= |items|
  {
    if items == [] then []
    else if items[0].kind == kind then [items[0]] + FilterByType(items[1..], kind)
    else FilterByType(items[1..], kind)
  }

  /** The filter keeps exactly the items of the given type, each as often
      as in the response, and in response order. */
  lemma {:induction false} FilterKeepsExactlyType(items: seq<Statement>, kind: string)
    ensures forall i :: 0 <= i < |FilterByType(items, kind)| ==> FilterByType(items, kind)[i].kind == kind
    ensures forall s :: multiset(FilterByType(items, kind))[s] ==
                        if s.kind == kind then multiset(items)[s] else 0
    ensures IsSubsequence(FilterByType(items, kind), items)
  {
    if items != [] {
      FilterKeepsExactlyType(items[1..], kind);
      assert items == [items[0]] + items[1..];
    }
  }

  /** `pros` and `cons` as the profile computes them from one response:
      a statement is a pro exactly when it is in the response with type
      "pro" and a con exactly when its type is "con", so a statement of any
      other type is in neither list (and, the two types being different
      strings, none is in both). */
  lemma SplitByType(items: seq<Statement>)
    ensures forall s :: s in FilterByType(items, Pro) <==> s in items && s.kind == Pro
    ensures forall s :: s in FilterByType(items, Con) <==> s in items && s.kind == Con
  {
    FilterKeepsExactlyType(items, Pro);
    FilterKeepsExactlyType(items, Con);
    var pros, cons := FilterByType(items, Pro), FilterByType(items, Con);
    assert forall s :: s in pros <==> multiset(pros)[s] > 0;
    assert forall s :: s in cons <==> multiset(cons)[s] > 0;
  }

  /** When every statement is a pro or a con, the split loses nothing: the
      two lists together are as long as the response. */
  lemma {:induction false} SplitIsComplete(items: seq<Statement>)
    requires forall i :: 0 <= i < |items| ==> items[i].kind == Pro || items[i].kind == Con
    ensures |FilterByType(items, Pro)| + |FilterByType(items, Con)| == |items|
  {
    if items != [] {
      SplitIsComplete(items[1..]);
    }
  }
}
