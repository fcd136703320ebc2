/**
 * The selectable-catalogue pattern that every demo page's side panel repeats:
 * two static registries (prop documentation and code snippets) written as
 * object literals, a lookup with a fallback, and a row of selector buttons.
 */
module Catalogue {
  import opened Wrappers

  /** One documented property of a widget: a row of a panel's props list. */
  datatype PropDoc = PropDoc(prop: string, typ: string, description: string)

  /** One `key: value` member of an object literal. */
  datatype Entry<V> = Entry(key: string, value: V)

  /** An object literal used as a string-keyed registry; members in declaration order. */
  type Registry<V> = seq<Entry<V>>

  /** No two members of the literal share a name. */
  ghost predicate UniqueKeys<V>(r: Registry<V>)
  {
    forall i, j :: 0 <= i < j < |r| ==> r[i].key != r[j].key
  }

  /** No name occurs twice in the list. */
  ghost predicate Distinct(ks: seq<string>)
  {
    forall i, j :: 0 <= i < j < |ks| ==> ks[i] != ks[j]
  }

  /** `Object.keys(r)`: the member names, in declaration order. */
  function Keys<V>(r: Registry<V>): (ks: seq<string>)
    ensures |ks| == |r|
    ensures forall i :: 0 <= i < |r| ==> ks[i] == r[i].key
  {
    seq(|r|, i requires 0 <= i < |r| => r[i].key)
  }

  /**
   * `r[k]`: the value stored under `k`, or `None` for `undefined`.  Every
   * registry of the model has unique keys, so the first match is the only one.
   */
  function Get<V>(r: Registry<V>, k: string): (v: Option<V>)
    ensures v.Some? <==> k in Keys(r)
    ensures v.Some? ==> Entry(k, v.value) in r
  {
    var v := GetFrom(r, k, 0);
    assert v.Some? ==> k in Keys(r);
    v
  }

  /** The search behind `Get`, over the members from index `i` on. */
  function GetFrom<V>(r: Registry<V>, k: string, i: nat): (v: Option<V>)
    requires i <= |r|
    ensures v.Some? <==> exists j :: i <= j < |r| && r[j].key == k
    ensures v.Some? ==> exists j :: i <= j < |r| && r[j] == Entry(k, v.value)
    decreases |r| - i
  {
    if i == |r| then None
    else if r[i].key == k then Some(r[i].value)
    else GetFrom(r, k, i + 1)
  }

  /** A literal whose member names are distinct has unique keys. */
  lemma UniqueKeysOf<V>(r: Registry<V>)
    requires Distinct(Keys(r))
    ensures UniqueKeys(r)
  {
    var ks := Keys(r);
    forall i, j | 0 <= i < j < |r| ensures r[i].key != r[j].key {
      assert ks[i] != ks[j];
    }
  }

  /** With unique keys, the lookup returns exactly the value declared under the key. */
  lemma GetDeclared<V>(r: Registry<V>, i: nat)
    requires UniqueKeys(r)
    requires i < |r|
    ensures Get(r, r[i].key) == Some(r[i].value)
  {
  }

  /** No snippet of the registry is the empty string. */
  ghost predicate NonEmptyValues(r: Registry<string>)
  {
    forall i :: 0 <= i < |r| ==> r[i].value != ""
  }

  /** JavaScript `a || d` on a string-or-undefined: `d` when `a` is undefined or empty. */
  function OrElse(a: Option<string>, d: string): string
  {
    if a.Some? && a.value != "" then a.value else d
  }

  /** JavaScript `a ?? d`: `d` only when `a` is undefined. */
  function Coalesce(a: Option<string>, d: string): string
  {
    if a.Some? then a.value else d
  }

  /** How React renders `{a}` for a string-or-undefined: `undefined` renders as nothing. */
  function Rendered(a: Option<string>): string
  {
    if a.Some? then a.value else ""
  }

  /**
   * How a Web API that takes a DOMString converts its argument: a string is
   * passed as it is and `undefined` becomes the text "undefined".
   */
  function DomString(a: Option<string>): string
  {
    if a.Some? then a.value else "undefined"
  }

  /** The code-area placeholder of the panels that use `|| "..."`. */
  const NoCodeExample := "// No code example available"

  /**
   * A lookup with a fallback over a registry of non-empty snippets yields the
   * snippet declared under the key, or the fallback when there is none --
   * whether the fallback is written `||` or `??`.
   */
  lemma LookupWithFallback(r: Registry<string>, k: string, d: string)
    requires UniqueKeys(r) && NonEmptyValues(r)
    ensures OrElse(Get(r, k), d) == Coalesce(Get(r, k), d)
    ensures k !in Keys(r) ==> OrElse(Get(r, k), d) == d
    ensures forall i :: 0 <= i < |r| && r[i].key == k ==> OrElse(Get(r, k), d) == r[i].value
  {
    forall i | 0 <= i < |r| && r[i].key == k
      ensures OrElse(Get(r, k), d) == r[i].value
    {
      GetDeclared(r, i);
    }
  }

  /**
   * `r[k]?.map(...)`: the prop rows listed for `k`; when `k` is absent the
   * optional chain yields `undefined`, which renders as an empty list.
   */
  function RowsFor(r: Registry<seq<PropDoc>>, k: string): (rows: seq<PropDoc>)
    ensures k !in Keys(r) ==> rows == []
    ensures k in Keys(r) ==> Entry(k, rows) in r
  {
    match Get(r, k)
    case Some(rows) => rows
    case None => []
  }

  /** A selector button: its caption, whether it is highlighted, and the key its click passes on. */
  datatype SelectorButton = SelectorButton(caption: string, highlighted: bool, onSelect: string)

  /** `items.map(it => <button onClick={() => onSelect(it)} className={it === selected ? ... : ...}>)`. */
  function Selector(items: seq<string>, selected: string): (bs: seq<SelectorButton>)
    ensures |bs| == |items|
    ensures forall i :: 0 <= i < |items| ==>
      bs[i].caption == items[i] && bs[i].onSelect == items[i] &&
      (bs[i].highlighted <==> items[i] == selected)
  {
    if items == [] then []
    else [SelectorButton(items[0], items[0] == selected, items[0])] + Selector(items[1..], selected)
  }

  /**
   * Over distinct keys exactly one button is highlighted when the selection is
   * one of them, and none otherwise.
   */
  lemma {:induction false} HighlightedButtons(items: seq<string>, selected: string)
    requires forall i, j :: 0 <= i < j < |items| ==> items[i] != items[j]
    ensures var bs := Selector(items, selected);
      (selected in items ==> exists i :: 0 <= i < |bs| && bs[i].highlighted) &&
      (forall i, j :: 0 <= i < |bs| && 0 <= j < |bs| && bs[i].highlighted && bs[j].highlighted ==> i == j) &&
      (selected !in items ==> forall i :: 0 <= i < |bs| ==> !bs[i].highlighted)
  {
    var bs := Selector(items, selected);
    if selected in items {
      var k :| 0 <= k < |items| && items[k] == selected;
      assert bs[k].highlighted;
    }
  }
}
