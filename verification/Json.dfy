/** JSON values after parsing; printing and parsing text is abstracted to this value. */
module Json {
  datatype Json =
    | Null
    | Bool(b: bool)
    | Int(n: int)
    | Float(x: real)
    | Str(s: string)
    | Arr(items: seq<Json>)
    | Obj(fields: map<string, Json>)

  // ---------------------------------------------------------------------------------------------
  // The text entries of an array
  // ---------------------------------------------------------------------------------------------

  ghost function CountTexts(items: seq<Json>): nat {
    if items == [] then 0 else CountTexts(items[..|items| - 1]) + if items[|items| - 1].Str? then 1 else 0
  }

  /** `texts` are the text entries of `items`, in order: each stands behind those before it. */
  ghost predicate ListsTexts(texts: seq<string>, items: seq<Json>) {
    && |texts| == CountTexts(items)
    && forall i :: 0 <= i < |items| && items[i].Str? ==>
         CountTexts(items[..i]) < |texts| && texts[CountTexts(items[..i])] == items[i].s
  }

  lemma TextsStep(items: seq<Json>, i: nat)
    requires i < |items|
    ensures CountTexts(items[..i + 1]) == CountTexts(items[..i]) + if items[i].Str? then 1 else 0
    ensures forall k :: 0 <= k <= i ==> items[..i + 1][..k] == items[..k]
  {
    assert items[..i + 1][..i] == items[..i];
  }

  lemma {:induction false} TextAt(items: seq<Json>, k: nat) returns (i: nat)
    requires k < CountTexts(items)
    ensures i < |items| && items[i].Str? && CountTexts(items[..i]) == k
  {
    var n := |items| - 1;
    if k < CountTexts(items[..n]) {
      i := TextAt(items[..n], k);
      assert items[..n][..i] == items[..i];
    } else {
      i := n;
    }
  }

  /** The entries of a list are all that it holds. */
  lemma TextsAreListed(texts: seq<string>, items: seq<Json>, text: string)
    requires ListsTexts(texts, items)
    ensures text in texts <==> exists i :: 0 <= i < |items| && items[i] == Str(text)
  {
    if text in texts {
      var k :| 0 <= k < |texts| && texts[k] == text;
      var i := TextAt(items, k);
      assert items[i] == Str(text);
    }
  }

  lemma TextsAreUnique(a: seq<string>, b: seq<string>, items: seq<Json>)
    requires ListsTexts(a, items) && ListsTexts(b, items)
    ensures a == b
  {
    forall k | 0 <= k < |a|
      ensures a[k] == b[k]
    {
      var i := TextAt(items, k);
    }
  }
}
