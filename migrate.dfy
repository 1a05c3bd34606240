/**
 * The migration pass: for every resource it mints a shadow resource carrying a
 * fresh uid and the timestamp spec, for every datum page a shadow page whose
 * datum ids point into the shadow resource, and it annotates descriptors and
 * events so that the timestamp field is retrievable like the image field.
 */
module Migrate {
  import opened Documents

  /** The spec written into every shadow resource. */
  const TimestampSpec: string := "AD_HDF5_TS"

  // ---------------------------------------------------------------------------
  // Shadow resources
  // ---------------------------------------------------------------------------

  /** The shallow copy of a resource with its uid replaced and its spec set to the timestamp spec. */
  function ShadowResource(doc: Doc, newUid: string): (r: Doc)
    ensures r.Keys == doc.Keys + {"uid", "spec"}
    ensures r["uid"] == VStr(newUid) && r["spec"] == VStr(TimestampSpec)
    ensures forall k :: k in doc && k != "uid" && k != "spec" ==> r[k] == doc[k]
  {
    doc["uid" := VStr(newUid)]["spec" := VStr(TimestampSpec)]
  }

  // ---------------------------------------------------------------------------
  // Shadow datum ids
  // ---------------------------------------------------------------------------

  /** The f-string `f'{res_uid}/{i}'`. */
  function MintedId(resUid: string, i: nat): string
  {
    resUid + "/" + NatToString(i)
  }

  /**
   * Shadow datum ids never collide: two of them are equal only when they come
   * from the same shadow resource and the same position, provided resource uids
   * contain no '/' (a uuid4 string does not).
   */
  lemma MintedIdInjective(u1: string, i1: nat, u2: string, i2: nat)
    requires '/' !in u1 && '/' !in u2
    ensures MintedId(u1, i1) == MintedId(u2, i2) ==> u1 == u2 && i1 == i2
  {
    var s1, s2 := MintedId(u1, i1), MintedId(u2, i2);
    if s1 == s2 {
      SlashIndexAfter(u1, NatToString(i1));
      SlashIndexAfter(u2, NatToString(i2));
      assert s1 == u1 + "/" + NatToString(i1) && s2 == u2 + "/" + NatToString(i2);
      assert |u1| == |u2|;
      assert u1 == s1[..|u1|] && u2 == s2[..|u2|];
      assert NatToString(i1) == s1[|u1| + 1..] && NatToString(i2) == s2[|u2| + 1..];
      NatToStringInjective(i1, i2);
    }
  }

  /** The position of the first '/' in s, or |s| when there is none. */
  function SlashIndex(s: string): (n: nat)
    ensures n <= |s|
  {
    if s == [] || s[0] == '/' then 0 else 1 + SlashIndex(s[1..])
  }

  lemma {:induction false} SlashIndexAfter(u: string, rest: string)
    requires '/' !in u
    ensures SlashIndex(u + "/" + rest) == |u|
  {
    if u != [] {
      assert (u + "/" + rest)[1..] == u[1..] + "/" + rest;
      SlashIndexAfter(u[1..], rest);
    }
  }

  /** The datum ids of a shadow page of n entries: position i gets `<resUid>/<i>`. */
  function MintedIds(resUid: string, n: nat): (r: seq<Value>)
    ensures |r| == n
    ensures forall i :: 0 <= i < n ==> r[i] == VStr(MintedId(resUid, i))
  {
    seq(n, i requires 0 <= i < n => VStr(MintedId(resUid, i)))
  }

  /**
   * The deep copy of a datum page with its datum ids re-minted under the shadow
   * uid of its resource. KeyError when the page has no `resource`, when that
   * resource was never shadowed, or when the page has no `datum_id`.
   */
  function ShadowDatumPage(resUids: map<Value, string>, doc: Doc): (r: Result<Doc>)
    ensures "resource" !in doc ==> r == Err(KeyError(VStr("resource")))
    ensures "resource" in doc && doc["resource"] !in resUids ==> r == Err(KeyError(doc["resource"]))
    ensures "resource" in doc && doc["resource"] in resUids && "datum_id" !in doc ==> r == Err(KeyError(VStr("datum_id")))
    ensures r.Ok? <==> "resource" in doc && doc["resource"] in resUids && "datum_id" in doc && doc["datum_id"].VList?
    ensures r.Ok? ==> r.value.Keys == doc.Keys
    ensures r.Ok? ==> forall k :: k in doc && k != "datum_id" ==> r.value[k] == doc[k]
    ensures r.Ok? ==>
      var ids, copy := doc["datum_id"].items, r.value["datum_id"];
      copy.VList? && |copy.items| == |ids| &&
      forall i :: 0 <= i < |ids| ==> copy.items[i] == VStr(MintedId(resUids[doc["resource"]], i))
  {
    var res :- Lookup(doc, "resource");
    if res !in resUids then Err(KeyError(res))
    else
      var ids :- Lookup(doc, "datum_id");
      match ids
      case VList(xs) => Ok(doc["datum_id" := VList(MintedIds(resUids[res], |xs|))])
      case _ => Err(TypeError)
  }

  /** The datum-id table after recording, in page order, `ids[i] -> <resUid>/<i>`. */
  function Recorded(m: map<Value, string>, ids: seq<Value>, resUid: string): map<Value, string>
  {
    if ids == [] then m
    else Recorded(m, ids[..|ids| - 1], resUid)[ids[|ids| - 1] := MintedId(resUid, |ids| - 1)]
  }

  /** The last position at which k occurs in ids. */
  function LastIndexOf(ids: seq<Value>, k: Value): (i: nat)
    requires k in ids
    ensures i < |ids| && ids[i] == k
    ensures forall j :: i < j < |ids| ==> ids[j] != k
  {
    if ids[|ids| - 1] == k then |ids| - 1
    else
      assert k in ids[..|ids| - 1] by {
        var j :| 0 <= j < |ids| && ids[j] == k;
        assert ids[..|ids| - 1][j] == k;
      }
      LastIndexOf(ids[..|ids| - 1], k)
  }

  /**
   * What recording a page does to the table: every id of the page maps to the
   * shadow id of its last occurrence, every other key keeps its old value, and
   * no other key appears.
   */
  lemma {:induction false} RecordedAt(m: map<Value, string>, ids: seq<Value>, resUid: string, k: Value)
    ensures k in Recorded(m, ids, resUid) <==> k in m || k in ids
    ensures k in ids ==> Recorded(m, ids, resUid)[k] == MintedId(resUid, LastIndexOf(ids, k))
    ensures k !in ids && k in m ==> Recorded(m, ids, resUid)[k] == m[k]
  {
    if ids != [] {
      var init := ids[..|ids| - 1];
      RecordedAt(m, init, resUid, k);
      assert ids == init + [ids[|ids| - 1]];
      assert k in ids <==> k in init || k == ids[|ids| - 1];
    }
  }

  /** For a page without repeated ids, entry i is recorded as `<resUid>/<i>`; other keys are untouched. */
  lemma RecordedDistinct(m: map<Value, string>, ids: seq<Value>, resUid: string)
    requires forall i, j :: 0 <= i < j < |ids| ==> ids[i] != ids[j]
    ensures forall i :: 0 <= i < |ids| ==> ids[i] in Recorded(m, ids, resUid) && Recorded(m, ids, resUid)[ids[i]] == MintedId(resUid, i)
    ensures forall k :: k in m && k !in ids ==> k in Recorded(m, ids, resUid) && Recorded(m, ids, resUid)[k] == m[k]
  {
    forall i | 0 <= i < |ids|
      ensures ids[i] in Recorded(m, ids, resUid) && Recorded(m, ids, resUid)[ids[i]] == MintedId(resUid, i)
    {
      RecordedAt(m, ids, resUid, ids[i]);
    }
    forall k | k in m && k !in ids
      ensures k in Recorded(m, ids, resUid) && Recorded(m, ids, resUid)[k] == m[k]
    {
      RecordedAt(m, ids, resUid, k);
    }
  }

  // ---------------------------------------------------------------------------
  // Descriptor and event annotation (the source mutates the document in place;
  // here the handler yields the document as it is after the mutation)
  // ---------------------------------------------------------------------------

  /**
   * A descriptor with a data key for the timestamp field added: a shallow copy
   * of the image field's data key whose shape is cut to its first element.
   * Unchanged when `data_keys` or the image field's data key is absent.
   */
  function AnnotateDescriptor(imageField: string, timestampField: string, doc: Doc): (r: Result<Doc>)
  {
    if "data_keys" !in doc then Ok(doc)
    else
      match doc["data_keys"]
      case VDict(keys) =>
        if imageField !in keys then Ok(doc)
        else
          (match keys[imageField]
           case VDict(key) =>
             var shape :- Lookup(key, "shape");
             var cut :- Prefix(shape, 1);
             Ok(doc["data_keys" := VDict(keys[timestampField := VDict(key["shape" := cut])])])
           case VList(_) => Err(TypeError)
           case _ => Err(AttributeError("copy")))
      case _ => Err(TypeError)
  }

  /** A descriptor without the image field's data key passes through unchanged. */
  lemma DescriptorWithoutImageKey(imageField: string, timestampField: string, doc: Doc)
    requires "data_keys" !in doc || (doc["data_keys"].VDict? && imageField !in doc["data_keys"].fields)
    ensures AnnotateDescriptor(imageField, timestampField, doc) == Ok(doc)
  {
  }

  /**
   * With the image field's data key present and its shape a list, the timestamp
   * data key is that data key with shape cut to its first element; the image
   * data key keeps its full shape, and nothing else in the document changes.
   */
  lemma DescriptorAddsTimestampKey(imageField: string, timestampField: string, doc: Doc)
    requires imageField != timestampField
    requires "data_keys" in doc && doc["data_keys"].VDict?
    requires imageField in doc["data_keys"].fields && doc["data_keys"].fields[imageField].VDict?
    requires "shape" in doc["data_keys"].fields[imageField].fields
    requires doc["data_keys"].fields[imageField].fields["shape"].VList?
    ensures var r := AnnotateDescriptor(imageField, timestampField, doc);
      var keys, key := doc["data_keys"].fields, doc["data_keys"].fields[imageField].fields;
      var shape := key["shape"].items;
      && r.Ok? && r.value.Keys == doc.Keys
      && (forall f :: f in doc && f != "data_keys" ==> r.value[f] == doc[f])
      && r.value["data_keys"].VDict?
      && r.value["data_keys"].fields.Keys == keys.Keys + {timestampField}
      && r.value["data_keys"].fields[imageField] == keys[imageField]
      && r.value["data_keys"].fields[timestampField] == VDict(key["shape" := VList(if |shape| == 0 then [] else [shape[0]])])
      && (forall f :: f in keys && f != timestampField ==> r.value["data_keys"].fields[f] == keys[f])
  {
    var shape := doc["data_keys"].fields[imageField].fields["shape"].items;
    assert shape[..if |shape| < 1 then |shape| else 1] == if |shape| == 0 then [] else [shape[0]];
  }

  /** An image data key without `shape` raises KeyError("shape") at the cut, after the copy. */
  lemma DescriptorMissingShape(imageField: string, timestampField: string, doc: Doc)
    requires "data_keys" in doc && doc["data_keys"].VDict?
    requires imageField in doc["data_keys"].fields && doc["data_keys"].fields[imageField].VDict?
    requires "shape" !in doc["data_keys"].fields[imageField].fields
    ensures AnnotateDescriptor(imageField, timestampField, doc) == Err(KeyError(VStr("shape")))
  {
  }

  /** Annotating a descriptor twice is the same as annotating it once. */
  lemma DescriptorIdempotent(imageField: string, timestampField: string, doc: Doc)
    requires AnnotateDescriptor(imageField, timestampField, doc).Ok?
    ensures AnnotateDescriptor(imageField, timestampField, AnnotateDescriptor(imageField, timestampField, doc).value)
            == AnnotateDescriptor(imageField, timestampField, doc)
  {
    var once := AnnotateDescriptor(imageField, timestampField, doc).value;
    if "data_keys" in doc && doc["data_keys"].VDict? && imageField in doc["data_keys"].fields {
      var keys := doc["data_keys"].fields;
      var key := keys[imageField].fields;
      var cut := Prefix(key["shape"], 1).value;
      if cut.VList? {
        assert cut.items[..|cut.items|] == cut.items;
      } else {
        assert cut.s[..|cut.s|] == cut.s;
      }
      assert Prefix(cut, 1) == Ok(cut);
      var keys1 := once["data_keys"].fields;
      if imageField == timestampField {
        assert keys1[imageField] == VDict(key["shape" := cut]);
        assert key["shape" := cut]["shape" := cut] == key["shape" := cut];
        assert keys1[timestampField := VDict(key["shape" := cut])] == keys1;
      } else {
        assert keys1[imageField] == keys[imageField];
        assert keys1[timestampField := VDict(key["shape" := cut])] == keys1;
      }
      assert once["data_keys" := VDict(keys1)] == once;
    }
  }

  /**
   * An event with the timestamp field stored next to the image field: its value
   * is the shadow datum id of the image field's datum id, and when the event has
   * a `filled` map the timestamp field is marked unfilled there. Unchanged when
   * the image field is absent from `data`; KeyError when the datum id was never
   * shadowed.
   */
  function AnnotateEvent(datumIds: map<Value, string>, imageField: string, timestampField: string, doc: Doc): (r: Result<Doc>)
  {
    var data :- Lookup(doc, "data");
    match data
    case VDict(fields) =>
      if imageField !in fields then Ok(doc)
      else
        var datumId := fields[imageField];
        if datumId !in datumIds then Err(KeyError(datumId))
        else
          var doc1 := doc["data" := VDict(fields[timestampField := VStr(datumIds[datumId])])];
          if "filled" !in doc then Ok(doc1)
          else
            (match doc["filled"]
             case VDict(filled) => Ok(doc1["filled" := VDict(filled[timestampField := VBool(false)])])
             case _ => Err(TypeError))
    case VList(xs) => if VStr(imageField) in xs then Err(TypeError) else Ok(doc)
    case VStr(text) => if Contains(text, imageField) then Err(TypeError) else Ok(doc)
    case _ => Err(TypeError)
  }

  /** Python's `pattern in text` on strings: pattern occurs in text as a contiguous run (the empty string always does). */
  function Contains(text: string, pattern: string): bool
    decreases |text|
  {
    |pattern| <= |text| && (text[..|pattern|] == pattern || Contains(text[1..], pattern))
  }

  /**
   * `data` need not be a dict for line 47: a list is searched for the field
   * name as an element and a string as a substring. When the name is not there
   * the event passes through unchanged; when it is, indexing the list or string
   * by it raises TypeError.
   */
  lemma EventDataSequence(datumIds: map<Value, string>, imageField: string, timestampField: string, doc: Doc)
    requires "data" in doc && (doc["data"].VList? || doc["data"].VStr?)
    ensures var found := if doc["data"].VList? then VStr(imageField) in doc["data"].items else Contains(doc["data"].s, imageField);
      AnnotateEvent(datumIds, imageField, timestampField, doc) == if found then Err(TypeError) else Ok(doc)
  {
  }

  /** A pattern found at position i of the text is contained in it. */
  lemma {:induction false} ContainsAt(text: string, pattern: string, i: nat)
    requires i + |pattern| <= |text| && text[i..i + |pattern|] == pattern
    ensures Contains(text, pattern)
  {
    if i == 0 {
      assert text[..|pattern|] == pattern;
    } else {
      assert text[1..][i - 1..i - 1 + |pattern|] == text[i..i + |pattern|];
      ContainsAt(text[1..], pattern, i - 1);
    }
  }

  /** A contained pattern is found at some position of the text. */
  lemma {:induction false} ContainsFound(text: string, pattern: string) returns (i: nat)
    requires Contains(text, pattern)
    ensures i + |pattern| <= |text| && text[i..i + |pattern|] == pattern
    decreases |text|
  {
    if text[..|pattern|] == pattern {
      i := 0;
      assert text[0..|pattern|] == text[..|pattern|];
    } else {
      var k := ContainsFound(text[1..], pattern);
      i := k + 1;
      assert text[1..][k..k + |pattern|] == text[i..i + |pattern|];
    }
  }

  /** An event whose data lacks the image field passes through unchanged. */
  lemma EventWithoutImageField(datumIds: map<Value, string>, imageField: string, timestampField: string, doc: Doc)
    requires "data" in doc && doc["data"].VDict? && imageField !in doc["data"].fields
    ensures AnnotateEvent(datumIds, imageField, timestampField, doc) == Ok(doc)
  {
  }

  /** An event whose image datum id was never shadowed raises KeyError for that id. */
  lemma EventUnknownDatum(datumIds: map<Value, string>, imageField: string, timestampField: string, doc: Doc)
    requires "data" in doc && doc["data"].VDict? && imageField in doc["data"].fields
    requires doc["data"].fields[imageField] !in datumIds
    ensures AnnotateEvent(datumIds, imageField, timestampField, doc) == Err(KeyError(doc["data"].fields[imageField]))
  {
  }

  /**
   * An event with a shadowed image datum id: `data[timestamp]` becomes the
   * shadow datum id, `filled[timestamp]` becomes false exactly when `filled`
   * exists, and no other field of the event, of `data` or of `filled` changes.
   */
  lemma EventStoresShadowId(datumIds: map<Value, string>, imageField: string, timestampField: string, doc: Doc)
    requires "data" in doc && doc["data"].VDict? && imageField in doc["data"].fields
    requires doc["data"].fields[imageField] in datumIds
    requires "filled" in doc ==> doc["filled"].VDict?
    ensures var r := AnnotateEvent(datumIds, imageField, timestampField, doc);
      var data := doc["data"].fields;
      && r.Ok?
      && r.value.Keys == doc.Keys
      && (forall f :: f in doc && f != "data" && f != "filled" ==> r.value[f] == doc[f])
      && r.value["data"] == VDict(data[timestampField := VStr(datumIds[data[imageField]])])
      && ("filled" in doc ==> r.value["filled"] == VDict(doc["filled"].fields[timestampField := VBool(false)]))
  {
  }

  /**
   * Pages and events compose: after a page without repeated ids is recorded
   * under shadow uid u, an event whose image field holds the page's i-th datum
   * id gets `<u>/<i>` as its timestamp field.
   */
  lemma EventAfterDatumPage(m: map<Value, string>, ids: seq<Value>, u: string, i: nat,
                            imageField: string, timestampField: string, doc: Doc)
    requires forall a, b :: 0 <= a < b < |ids| ==> ids[a] != ids[b]
    requires i < |ids|
    requires "data" in doc && doc["data"].VDict? && imageField in doc["data"].fields
    requires doc["data"].fields[imageField] == ids[i]
    requires "filled" in doc ==> doc["filled"].VDict?
    ensures var r := AnnotateEvent(Recorded(m, ids, u), imageField, timestampField, doc);
      r.Ok? && r.value["data"].VDict? && r.value["data"].fields[timestampField] == VStr(MintedId(u, i))
  {
    RecordedDistinct(m, ids, u);
    EventStoresShadowId(Recorded(m, ids, u), imageField, timestampField, doc);
  }

  /** Annotating an event twice is the same as annotating it once, when the two field names differ. */
  lemma EventIdempotent(datumIds: map<Value, string>, imageField: string, timestampField: string, doc: Doc)
    requires imageField != timestampField
    requires AnnotateEvent(datumIds, imageField, timestampField, doc).Ok?
    ensures AnnotateEvent(datumIds, imageField, timestampField, AnnotateEvent(datumIds, imageField, timestampField, doc).value)
            == AnnotateEvent(datumIds, imageField, timestampField, doc)
  {
    var once := AnnotateEvent(datumIds, imageField, timestampField, doc).value;
    if !doc["data"].VDict? {
      assert once == doc;
      return;
    }
    var data := doc["data"].fields;
    if imageField in data {
      var shadow := VStr(datumIds[data[imageField]]);
      var data1 := data[timestampField := shadow];
      assert once["data"] == VDict(data1);
      assert data1[imageField] == data[imageField];
      assert data1[timestampField := shadow] == data1;
      if "filled" in doc {
        var filled1 := doc["filled"].fields[timestampField := VBool(false)];
        assert once["filled"] == VDict(filled1);
        assert filled1[timestampField := VBool(false)] == filled1;
        assert once["data" := VDict(data1)]["filled" := VDict(filled1)] == once;
      } else {
        assert once["data" := VDict(data1)] == once;
      }
    }
  }

  // ---------------------------------------------------------------------------
  // The stateful router
  // ---------------------------------------------------------------------------

  /**
   * The migration router. `emitted` is everything handed to the downstream
   * serializer, in order; `minted` is every shadow resource uid handed out.
   */
  class Migration {
    const imageField: string
    const timestampField: string
    var newResUids: map<Value, string>
    var newDatumIds: map<Value, string>
    var emitted: seq<(Kind, Doc)>
    ghost var minted: set<string>

    /**
     * Referential integrity: every resource maps to a minted shadow uid, and
     * every shadow datum id is `<u>/<i>` for some minted shadow uid u.
     */
    ghost predicate Valid()
      reads this
    {
      && (forall k :: k in newResUids ==> newResUids[k] in minted)
      && (forall k :: k in newDatumIds ==> exists u: string, i: nat :: u in minted && newDatumIds[k] == MintedId(u, i))
    }

    constructor (imageField: string, timestampField: string)
      ensures Valid()
      ensures this.imageField == imageField && this.timestampField == timestampField
      ensures newResUids == map[] && newDatumIds == map[] && emitted == [] && minted == {}
    {
      this.imageField := imageField;
      this.timestampField := timestampField;
      newResUids := map[];
      newDatumIds := map[];
      emitted := [];
      minted := {};
    }

    /** The `resource` handler; `newUid` stands for `str(uuid.uuid4())`. */
    method Resource(doc: Doc, newUid: string) returns (err: Option<Error>)
      requires Valid()
      modifies this
      ensures Valid()
      ensures "uid" !in doc ==> err == Some(AssertionError) && unchanged(this)
      ensures "uid" in doc ==>
        && err == None
        && newResUids == old(newResUids)[doc["uid"] := newUid]
        && newDatumIds == old(newDatumIds)
        && emitted == old(emitted) + [(Kind.Resource, ShadowResource(doc, newUid))]
        && minted == old(minted) + {newUid}
    {
      if "uid" !in doc {
        return Some(AssertionError);
      }
      minted := minted + {newUid};
      newResUids := newResUids[doc["uid"] := newUid];
      emitted := emitted + [(Kind.Resource, ShadowResource(doc, newUid))];
      return None;
    }

    /** The `datum_page` handler. */
    method DatumPage(doc: Doc) returns (err: Option<Error>)
      requires Valid()
      modifies this
      ensures Valid()
      ensures ShadowDatumPage(old(newResUids), doc).Err? ==>
        err == Some(ShadowDatumPage(old(newResUids), doc).error) && unchanged(this)
      ensures ShadowDatumPage(old(newResUids), doc).Ok? ==>
        && err == None
        && newResUids == old(newResUids) && minted == old(minted)
        && newDatumIds == Recorded(old(newDatumIds), doc["datum_id"].items, newResUids[doc["resource"]])
        && emitted == old(emitted) + [(Kind.DatumPage, ShadowDatumPage(old(newResUids), doc).value)]
    {
      var copy := doc;
      if "resource" !in doc {
        return Some(KeyError(VStr("resource")));
      }
      var res := doc["resource"];
      if res !in newResUids {
        return Some(KeyError(res));
      }
      var newResUid := newResUids[res];
      if "datum_id" !in doc {
        return Some(KeyError(VStr("datum_id")));
      }
      if !doc["datum_id"].VList? {
        return Some(TypeError);
      }
      var ids := doc["datum_id"].items;
      var copyIds := ids;
      var i := 0;
      while i < |ids|
        invariant 0 <= i <= |ids|
        invariant |copyIds| == |ids|
        invariant forall j :: 0 <= j < i ==> copyIds[j] == VStr(MintedId(newResUid, j))
        invariant newDatumIds == Recorded(old(newDatumIds), ids[..i], newResUid)
        invariant newResUids == old(newResUids) && minted == old(minted) && emitted == old(emitted)
        invariant Valid()
      {
        var newDatumId := MintedId(newResUid, i);
        copyIds := copyIds[i := VStr(newDatumId)];
        assert ids[..i + 1][..i] == ids[..i];
        newDatumIds := newDatumIds[ids[i] := newDatumId];
        i := i + 1;
      }
      assert ids[..i] == ids;
      assert copyIds == MintedIds(newResUid, |ids|);
      copy := copy["datum_id" := VList(copyIds)];
      emitted := emitted + [(Kind.DatumPage, copy)];
      return None;
    }

    /** `__call__`: run the handler for the kind, then forward the (possibly annotated) document. */
    method Call(kind: Kind, doc: Doc, newUid: string) returns (err: Option<Error>)
      requires Valid()
      modifies this
      ensures Valid()
      ensures kind == Kind.Resource ==>
        if "uid" !in doc then err == Some(AssertionError) && unchanged(this)
        else
          && err == None
          && newResUids == old(newResUids)[doc["uid"] := newUid]
          && newDatumIds == old(newDatumIds)
          && emitted == old(emitted) + [(Kind.Resource, ShadowResource(doc, newUid)), (Kind.Resource, doc)]
          && minted == old(minted) + {newUid}
      ensures kind == Kind.DatumPage ==>
        match ShadowDatumPage(old(newResUids), doc)
        case Err(e) => err == Some(e) && unchanged(this)
        case Ok(copy) =>
          && err == None
          && newResUids == old(newResUids) && minted == old(minted)
          && newDatumIds == Recorded(old(newDatumIds), doc["datum_id"].items, newResUids[doc["resource"]])
          && emitted == old(emitted) + [(Kind.DatumPage, copy), (Kind.DatumPage, doc)]
      ensures kind == Kind.Descriptor ==>
        match AnnotateDescriptor(imageField, timestampField, doc)
        case Err(e) => err == Some(e) && unchanged(this)
        case Ok(d) =>
          err == None && newResUids == old(newResUids) && newDatumIds == old(newDatumIds) && minted == old(minted)
          && emitted == old(emitted) + [(Kind.Descriptor, d)]
      ensures kind == Kind.Event ==>
        match AnnotateEvent(old(newDatumIds), imageField, timestampField, doc)
        case Err(e) => err == Some(e) && unchanged(this)
        case Ok(d) =>
          err == None && newResUids == old(newResUids) && newDatumIds == old(newDatumIds) && minted == old(minted)
          && emitted == old(emitted) + [(Kind.Event, d)]
      ensures kind == Kind.EventPage ==> err == Some(NotImplementedError) && unchanged(this)
      ensures kind in {Kind.Start, Kind.Datum, Kind.Stop} ==>
        err == None && newResUids == old(newResUids) && newDatumIds == old(newDatumIds) && minted == old(minted)
        && emitted == old(emitted) + [(kind, doc)]
    {
      var forwarded := doc;
      match kind {
        case Resource =>
          err := Resource(doc, newUid);
        case DatumPage =>
          err := DatumPage(doc);
        case Descriptor =>
          var r := AnnotateDescriptor(imageField, timestampField, doc);
          if r.Err? {
            return Some(r.error);
          }
          forwarded := r.value;
          err := None;
        case Event =>
          var r := AnnotateEvent(newDatumIds, imageField, timestampField, doc);
          if r.Err? {
            return Some(r.error);
          }
          forwarded := r.value;
          err := None;
        case EventPage =>
          return Some(NotImplementedError);
        case _ =>
          err := None;
      }
      if err.Some? {
        return;
      }
      emitted := emitted + [(kind, forwarded)];
    }
  }
}
