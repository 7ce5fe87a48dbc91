/** `extract_item_info`: the photo URLs and variation ids of an item document. */
module Extractor {
  import opened Wrappers
  import opened Json

  const PicturesKey := "pictures"
  const UrlKey := "secure_url"
  const VariationsKey := "variations"
  const IdKey := "id"

  /** The pair `(pictures, variation_ids)` the source returns when the
      document is truthy. Entries are whatever the document holds there. */
  datatype ExtractedInfo = ExtractedInfo(pictures: seq<Value>, variationIds: seq<Value>)

  /** `key in d and d[key]` on a dict. */
  predicate Selected(m: map<string, Value>, key: string) {
    key in m && Truthy(m[key])
  }

  /** Every element of `items` is a dict carrying `sub`, so that
      `[e[sub] for e in items]` raises neither TypeError nor KeyError. */
  predicate AllCarry(items: seq<Value>, sub: string) {
    forall i :: 0 <= i < |items| ==> items[i].JObj? && sub in items[i].fields
  }

  /** The comprehension over `d[key]` runs to completion whenever it runs:
      a selected field must be a list of dicts carrying `sub` (iterating a
      dict or string yields strings, a number is not iterable). */
  predicate Projectable(m: map<string, Value>, key: string, sub: string) {
    Selected(m, key) ==> m[key].JArr? && AllCarry(m[key].items, sub)
  }

  /** The documents on which `extract_item_info` returns instead of raising.
      A falsy document returns at once. For a truthy list or string, `in` is
      element membership or a substring test, and a hit makes the following
      `item_data[...]` raise TypeError; `in` on a number or boolean raises. */
  predicate Extractable(doc: Value) {
    !Truthy(doc) ||
    match doc
    case JObj(m) => Projectable(m, PicturesKey, UrlKey) && Projectable(m, VariationsKey, IdKey)
    case JArr(a) => JStr(PicturesKey) !in a && JStr(VariationsKey) !in a
    case JStr(s) => !IsInfix(PicturesKey, s) && !IsInfix(VariationsKey, s)
    case _ => false
  }

  /** `[e[sub] for e in items]`, in source order. */
  function Project(items: seq<Value>, sub: string): (r: seq<Value>)
    requires AllCarry(items, sub)
    ensures |r| == |items|
    ensures forall i :: 0 <= i < |items| ==> r[i] == items[i].fields[sub]
  {
    if items == [] then []
    else [items[0].fields[sub]] + Project(items[1..], sub)
  }

  /** One of the two lists: the projection when the field is selected, else `[]`. */
  function Collect(m: map<string, Value>, key: string, sub: string): (r: seq<Value>)
    requires Projectable(m, key, sub)
    ensures !Selected(m, key) ==> r == []
    ensures Selected(m, key) ==>
              |r| == |m[key].items| &&
              forall i :: 0 <= i < |r| ==> r[i] == m[key].items[i].fields[sub]
  {
    if Selected(m, key) then Project(m[key].items, sub) else []
  }

  /** `extract_item_info(item_data)`: `None` (the source's `(None, None)`)
      for a falsy document, otherwise the two lists. */
  function Extract(doc: Value): (r: Option<ExtractedInfo>)
    requires Extractable(doc)
    ensures r.None? <==> !Truthy(doc)
    ensures r.Some? && !doc.JObj? ==> r.value == ExtractedInfo([], [])
    ensures r.Some? && doc.JObj? ==>
              && (Selected(doc.fields, PicturesKey) ==>
                    |r.value.pictures| == |doc.fields[PicturesKey].items| &&
                    forall i :: 0 <= i < |r.value.pictures| ==>
                      r.value.pictures[i] == doc.fields[PicturesKey].items[i].fields[UrlKey])
              && (!Selected(doc.fields, PicturesKey) ==> r.value.pictures == [])
              && (Selected(doc.fields, VariationsKey) ==>
                    |r.value.variationIds| == |doc.fields[VariationsKey].items| &&
                    forall i :: 0 <= i < |r.value.variationIds| ==>
                      r.value.variationIds[i] == doc.fields[VariationsKey].items[i].fields[IdKey])
              && (!Selected(doc.fields, VariationsKey) ==> r.value.variationIds == [])
  {
    if !Truthy(doc) then None
    else if doc.JObj? then
      Some(ExtractedInfo(Collect(doc.fields, PicturesKey, UrlKey),
                         Collect(doc.fields, VariationsKey, IdKey)))
    else Some(ExtractedInfo([], []))
  }

  /** Two truthy dict documents that agree on `pictures` (both lack it, or
      both hold the same value) yield the same photo list, whatever else differs. */
  lemma PicturesDependOnlyOnPictures(m1: map<string, Value>, m2: map<string, Value>)
    requires m1 != map[] && m2 != map[]
    requires Extractable(JObj(m1)) && Extractable(JObj(m2))
    requires PicturesKey in m1 <==> PicturesKey in m2
    requires PicturesKey in m1 ==> m1[PicturesKey] == m2[PicturesKey]
    ensures Extract(JObj(m1)).value.pictures == Extract(JObj(m2)).value.pictures
  {
  }

  /** The same for `variations` and the variation ids. */
  lemma VariationsDependOnlyOnVariations(m1: map<string, Value>, m2: map<string, Value>)
    requires m1 != map[] && m2 != map[]
    requires Extractable(JObj(m1)) && Extractable(JObj(m2))
    requires VariationsKey in m1 <==> VariationsKey in m2
    requires VariationsKey in m1 ==> m1[VariationsKey] == m2[VariationsKey]
    ensures Extract(JObj(m1)).value.variationIds == Extract(JObj(m2)).value.variationIds
  {
  }

  /** Setting any other key (`attributes`, `title`, ...) of a truthy dict
      document keeps it extractable and changes neither list. */
  lemma OtherKeysIrrelevant(m: map<string, Value>, key: string, v: Value)
    requires m != map[] && Extractable(JObj(m))
    requires key != PicturesKey && key != VariationsKey
    ensures Extractable(JObj(m[key := v]))
    ensures Extract(JObj(m[key := v])) == Extract(JObj(m))
  {
  }

  /** An empty dict document gives `(None, None)`, not a pair of empty lists. */
  lemma EmptyDocumentGivesNone()
    ensures Extract(JObj(map[])) == None
    ensures Extract(JNull) == None
  {
  }

  /** `{"id":"MLB123","pictures":[{"secure_url":"https://x/1.jpg"}],"variations":[]}`
      gives one photo URL and no variation ids. */
  lemma OnePictureNoVariations()
    ensures
      var doc := JObj(map[IdKey := JStr("MLB123"),
                          PicturesKey := JArr([JObj(map[UrlKey := JStr("https://x/1.jpg")])]),
                          VariationsKey := JArr([])]);
      Extractable(doc) && Extract(doc) == Some(ExtractedInfo([JStr("https://x/1.jpg")], []))
  {
    var pics := [JObj(map[UrlKey := JStr("https://x/1.jpg")])];
    var doc := JObj(map[IdKey := JStr("MLB123"), PicturesKey := JArr(pics), VariationsKey := JArr([])]);
    assert IdKey in doc.fields;
    var r := Extract(doc);
    assert |r.value.pictures| == 1;
    assert r.value.pictures[0] == JStr("https://x/1.jpg");
    assert r.value.pictures == [JStr("https://x/1.jpg")];
  }

  /** `variations = [{id:"A"}, {id:"B"}]` gives the ids `["A", "B"]`, in that order. */
  lemma TwoVariationsInOrder()
    ensures
      var doc := JObj(map[VariationsKey := JArr([JObj(map[IdKey := JStr("A")]),
                                                 JObj(map[IdKey := JStr("B")])])]);
      Extractable(doc) && Extract(doc) == Some(ExtractedInfo([], [JStr("A"), JStr("B")]))
  {
    var vars := [JObj(map[IdKey := JStr("A")]), JObj(map[IdKey := JStr("B")])];
    var doc := JObj(map[VariationsKey := JArr(vars)]);
    assert VariationsKey in doc.fields;
    var r := Extract(doc);
    assert |r.value.variationIds| == 2;
    assert r.value.variationIds[0] == JStr("A") && r.value.variationIds[1] == JStr("B");
    assert r.value.variationIds == [JStr("A"), JStr("B")];
  }
}
