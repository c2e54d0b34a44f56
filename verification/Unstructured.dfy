/** Untyped Kubernetes objects: nested maps, and the accessors of the apimachinery package
    "unstructured" that the two API versions use.  The package itself is not part of this model;
    its accessors follow their documentation.
 */
module Unstructured {
  import opened Common

  datatype Value =
    | Null | Str(text: string) | Int(number: int) | Float(decimal: real) | Bool(flag: bool)
    | List(items: seq<Value>) | Object(fields: map<string, Value>)

  type Fields = map<string, Value>

  const KIND := "kind"
  const API_VERSION := "apiVersion"
  const METADATA := "metadata"
  const SPEC := "spec"
  const NAME := "name"
  const NAMESPACE := "namespace"
  const LABELS := "labels"
  const ANNOTATIONS := "annotations"
  const RESOURCE_VERSION := "resourceVersion"
  const MANAGED_FIELDS := "managedFields"
  const UID := "uid"
  const ENABLED := "enabled"
  const MIN_REPLICAS := "minReplicas"
  const MAX_REPLICAS := "maxReplicas"
  const SCALING_MODE := "scalingMode"
  const DEPLOYMENT := "deployment"
  const DEPLOYMENT_NAME := "deploymentName"
  const TIMEOUT := "timeout"
  const POD_MODE := "podMode"

  const RESOURCE_KIND := "ChaosMonkeyConfiguration"

  /** The keys of equal length that share a map are different. */
  lemma KeysDiffer()
    ensures KIND != SPEC
    ensures MIN_REPLICAS != MAX_REPLICAS && MIN_REPLICAS != SCALING_MODE && MAX_REPLICAS != SCALING_MODE
    ensures ENABLED != TIMEOUT && ENABLED != POD_MODE && TIMEOUT != POD_MODE
  {
    assert KIND[0] != SPEC[0];
    assert MIN_REPLICAS[1] != MAX_REPLICAS[1];
    assert MIN_REPLICAS[0] != SCALING_MODE[0] && MAX_REPLICAS[0] != SCALING_MODE[0];
    assert ENABLED[0] != TIMEOUT[0] && ENABLED[0] != POD_MODE[0] && TIMEOUT[0] != POD_MODE[0];
  }

  /** What a typed accessor finds: a value, nothing, or something that is not what was asked for. */
  datatype Field<T> = Found(value: T) | Missing | Bad(reason: string)

  /** NestedFieldNoCopy. */
  function Nested(v: Value, path: seq<string>): Field<Value>
    decreases |path|
  {
    if path == [] then Found(v)
    else match v
      case Null => Missing
      case Object(fields) => if path[0] in fields then Nested(fields[path[0]], path[1..]) else Missing
      case _ => Bad("accessor error: not a map")
  }

  function NestedString(obj: Fields, path: seq<string>): Field<string> {
    match Nested(Object(obj), path)
    case Found(Str(s)) => Found(s)
    case Found(_) => Bad("accessor error: not a string")
    case Missing => Missing
    case Bad(e) => Bad(e)
  }

  function NestedInt64(obj: Fields, path: seq<string>): Field<int> {
    match Nested(Object(obj), path)
    case Found(Int(n)) => Found(n)
    case Found(_) => Bad("accessor error: not an int64")
    case Missing => Missing
    case Bad(e) => Bad(e)
  }

  function NestedBool(obj: Fields, path: seq<string>): Field<bool> {
    match Nested(Object(obj), path)
    case Found(Bool(b)) => Found(b)
    case Found(_) => Bad("accessor error: not a bool")
    case Missing => Missing
    case Bad(e) => Bad(e)
  }

  /** SetNestedField: intermediate maps are created, anything else in the way is an error. */
  function SetNested(obj: Fields, v: Value, path: seq<string>): Result<Fields, string>
    requires path != []
    decreases |path|
  {
    if |path| == 1 then Ok(obj[path[0] := v])
    else if path[0] !in obj then
      match SetNested(map[], v, path[1..])
      case Ok(inner) => Ok(obj[path[0] := Object(inner)])
      case Err(e) => Err(e)
    else match obj[path[0]]
      case Object(fields) =>
        (match SetNested(fields, v, path[1..])
         case Ok(inner) => Ok(obj[path[0] := Object(inner)])
         case Err(e) => Err(e))
      case _ => Err("value cannot be set: not a map")
  }

  /** RemoveNestedField, for a path of two keys: nothing happens if the first leads to no map. */
  function RemoveNested(obj: Fields, outer: string, inner: string): Fields {
    if outer in obj && obj[outer].Object? then obj[outer := Object(obj[outer].fields - {inner})] else obj
  }

  /** The metadata that both versions carry over.  `None` is Go's nil map or slice, which is not
      the empty one; the entries of managedFields are opaque. */
  datatype ObjectMeta = ObjectMeta(
    name: string, space: string, labels: Option<map<string, string>>, annotations: Option<map<string, string>>,
    resourceVersion: string, managedFields: Option<seq<string>>, uid: string)

  function StringMap(m: map<string, string>): Value {
    Object(map k | k in m :: Str(m[k]))
  }

  function StringList(s: seq<string>): Value {
    List(seq(|s|, i requires 0 <= i < |s| => Str(s[i])))
  }

  /** NestedStringMap, whose errors the getters ignore. */
  function AsStringMap(f: Field<Value>): Option<map<string, string>> {
    match f
    case Found(Object(m)) =>
      if forall k :: k in m ==> m[k].Str? then Some(map k | k in m && m[k].Str? :: m[k].text) else None
    case _ => None
  }

  function AsStringList(f: Field<Value>): Option<seq<string>> {
    match f
    case Found(List(s)) =>
      if forall i :: 0 <= i < |s| ==> s[i].Str?
      then Some(seq(|s|, i requires 0 <= i < |s| => if s[i].Str? then s[i].text else ""))
      else None
    case _ => None
  }

  function OrEmpty(f: Field<string>): string {
    if f.Found? then f.value else ""
  }

  /** GetName to GetUID. */
  function GetMeta(obj: Fields): ObjectMeta {
    ObjectMeta(
      OrEmpty(NestedString(obj, [METADATA, NAME])),
      OrEmpty(NestedString(obj, [METADATA, NAMESPACE])),
      AsStringMap(Nested(Object(obj), [METADATA, LABELS])),
      AsStringMap(Nested(Object(obj), [METADATA, ANNOTATIONS])),
      OrEmpty(NestedString(obj, [METADATA, RESOURCE_VERSION])),
      AsStringList(Nested(Object(obj), [METADATA, MANAGED_FIELDS])),
      OrEmpty(NestedString(obj, [METADATA, UID])))
  }

  function GetKind(obj: Fields): string { OrEmpty(NestedString(obj, [KIND])) }

  function GetAPIVersion(obj: Fields): string { OrEmpty(NestedString(obj, [API_VERSION])) }

  /** A setter of one metadata field: writes it, or removes it when there is nothing to write. */
  function Put(obj: Fields, key: string, v: Option<Value>): Fields {
    match v
    case None => RemoveNested(obj, METADATA, key)
    case Some(value) =>
      match SetNested(obj, value, [METADATA, key]) { case Ok(o) => o case Err(_) => obj }
  }

  function NonEmpty(s: string): Option<Value> {
    if s == "" then None else Some(Str(s))
  }

  function MapOrNil(m: Option<map<string, string>>): Option<Value> {
    match m case None => None case Some(x) => Some(StringMap(x))
  }

  function ListOrNil(m: Option<seq<string>>): Option<Value> {
    match m case None => None case Some(x) => Some(StringList(x))
  }

  /** An object under construction. */
  class Builder {
    var fields: Fields

    constructor ()
      ensures fields == map[]
    {
      fields := map[];
    }

    method SetNestedField(v: Value, path: seq<string>) returns (err: Option<string>)
      requires path != []
      modifies this
      ensures match SetNested(old(fields), v, path)
              case Ok(o) => err == None && fields == o
              case Err(e) => err == Some(e) && fields == old(fields)
    {
      match SetNested(fields, v, path)
      case Ok(o) =>
        fields := o;
        err := None;
      case Err(e) => err := Some(e);
    }

    /** SetNestedField below the spec `spec` of header `h`; the first write creates it. */
    method SetSpecField(ghost h: Fields, ghost spec: Fields, key: string, v: Value) returns (err: Option<string>)
      requires SPEC !in h && (fields == h[SPEC := Object(spec)] || (fields == h && spec == map[]))
      modifies this
      ensures err == None
      ensures fields == h[SPEC := Object(spec[key := v])]
    {
      SetBelow(fields, SPEC, key, v);
      err := SetNestedField(v, [SPEC, key]);
    }

    /** SetNestedField two levels below the spec, in a map that is not there yet. */
    method SetSpecSubfield(ghost h: Fields, ghost spec: Fields, outer: string, inner: string, v: Value)
      returns (err: Option<string>)
      requires SPEC !in h && fields == h[SPEC := Object(spec)] && outer !in spec
      modifies this
      ensures err == None
      ensures fields == h[SPEC := Object(spec[outer := Object(map[inner := v])])]
    {
      SetBelowSpec(fields, outer, inner, v);
      err := SetNestedField(v, [SPEC, outer, inner]);
    }

    method PutField(key: string, v: Option<Value>)
      modifies this
      ensures fields == Put(old(fields), key, v)
    {
      match v
      case None => fields := RemoveNested(fields, METADATA, key);
      case Some(value) => var _ := SetNestedField(value, [METADATA, key]);
    }

    /** SetKind to SetUID, in the order in which both versions call them. */
    method SetHeader(kind: string, apiVersion: string, m: ObjectMeta)
      requires fields == map[]
      modifies this
      ensures fields == Header(kind, apiVersion, m)
    {
      var _ := SetNestedField(Str(kind), [KIND]);
      var _ := SetNestedField(Str(apiVersion), [API_VERSION]);
      PutField(NAME, NonEmpty(m.name));
      PutField(NAMESPACE, NonEmpty(m.space));
      PutField(LABELS, MapOrNil(m.labels));
      PutField(ANNOTATIONS, MapOrNil(m.annotations));
      PutField(RESOURCE_VERSION, NonEmpty(m.resourceVersion));
      PutField(MANAGED_FIELDS, ListOrNil(m.managedFields));
      PutField(UID, NonEmpty(m.uid));
    }
  }

  function Header(kind: string, apiVersion: string, m: ObjectMeta): Fields {
    var o := map[KIND := Str(kind)][API_VERSION := Str(apiVersion)];
    var o := Put(o, NAME, NonEmpty(m.name));
    var o := Put(o, NAMESPACE, NonEmpty(m.space));
    var o := Put(o, LABELS, MapOrNil(m.labels));
    var o := Put(o, ANNOTATIONS, MapOrNil(m.annotations));
    var o := Put(o, RESOURCE_VERSION, NonEmpty(m.resourceVersion));
    var o := Put(o, MANAGED_FIELDS, ListOrNil(m.managedFields));
    Put(o, UID, NonEmpty(m.uid))
  }

  /** What the metadata of an object says about one key. */
  function MetaAt(obj: Fields, key: string): Option<Value> {
    if METADATA in obj && obj[METADATA].Object? && key in obj[METADATA].fields
    then Some(obj[METADATA].fields[key]) else None
  }

  ghost predicate Plain(obj: Fields) {
    METADATA in obj ==> obj[METADATA].Object?
  }

  /** A write at depth two, below a map or below nothing. */
  lemma SetBelow(obj: Fields, outer: string, inner: string, v: Value)
    requires outer in obj ==> obj[outer].Object?
    ensures SetNested(obj, v, [outer, inner]) ==
            Ok(obj[outer := Object((if outer in obj then obj[outer].fields else map[])[inner := v])])
  {
    var below: Fields := if outer in obj then obj[outer].fields else map[];
    assert [outer, inner][1..] == [inner];
    assert SetNested(below, v, [inner]) == Ok(below[inner := v]);
  }

  /** A write at depth three goes into a map of its own. */
  lemma SetBelowSpec(obj: Fields, outer: string, inner: string, v: Value)
    requires HasSpec(obj) && outer !in obj[SPEC].fields
    ensures SetNested(obj, v, [SPEC, outer, inner]) ==
            Ok(obj[SPEC := Object(obj[SPEC].fields[outer := Object(map[inner := v])])])
  {
    assert [SPEC, outer, inner][1..] == [outer, inner];
    SetBelow(obj[SPEC].fields, outer, inner, v);
  }

  /** A metadata write changes what it says about its own key and nothing else. */
  lemma PutIsLocal(obj: Fields, key: string, v: Option<Value>)
    requires Plain(obj)
    ensures var o := Put(obj, key, v);
            && Plain(o)
            && MetaAt(o, key) == v
            && (forall k :: k != key ==> MetaAt(o, k) == MetaAt(obj, k))
            && (forall k :: k != METADATA ==> (k in o <==> k in obj) && (k in obj ==> o[k] == obj[k]))
  {
    if v.Some? {
      SetBelow(obj, METADATA, key, v.value);
    }
  }

  /** The header keeps every metadata field apart. */
  lemma HeaderHolds(kind: string, apiVersion: string, m: ObjectMeta)
    ensures var o := Header(kind, apiVersion, m);
            && Plain(o) && SPEC !in o
            && KIND in o && o[KIND] == Str(kind)
            && API_VERSION in o && o[API_VERSION] == Str(apiVersion)
            && Says(o, m)
  {
    KeysDiffer();
    var o0: Fields := map[KIND := Str(kind)][API_VERSION := Str(apiVersion)];
    PutIsLocal(o0, NAME, NonEmpty(m.name));
    var o1 := Put(o0, NAME, NonEmpty(m.name));
    PutIsLocal(o1, NAMESPACE, NonEmpty(m.space));
    var o2 := Put(o1, NAMESPACE, NonEmpty(m.space));
    PutIsLocal(o2, LABELS, MapOrNil(m.labels));
    var o3 := Put(o2, LABELS, MapOrNil(m.labels));
    PutIsLocal(o3, ANNOTATIONS, MapOrNil(m.annotations));
    var o4 := Put(o3, ANNOTATIONS, MapOrNil(m.annotations));
    PutIsLocal(o4, RESOURCE_VERSION, NonEmpty(m.resourceVersion));
    var o5 := Put(o4, RESOURCE_VERSION, NonEmpty(m.resourceVersion));
    PutIsLocal(o5, MANAGED_FIELDS, ListOrNil(m.managedFields));
    var o6 := Put(o5, MANAGED_FIELDS, ListOrNil(m.managedFields));
    PutIsLocal(o6, UID, NonEmpty(m.uid));
  }

  /** The error of an accessor, if it has one. */
  function AccessErrors<T>(f: Field<T>): seq<string> {
    match f case Bad(e) => [e] case _ => []
  }

  /** A field that was not found, with or without an accessor error, is reported by name. */
  function NotFound<T>(name: string, f: Field<T>): seq<string> {
    if f.Found? then [] else ["Field " + name + " not found"]
  }

  /** The six values of a spec are there, with these types. */
  predicate HasSpec(obj: Fields) {
    SPEC in obj && obj[SPEC].Object?
  }

  function SpecAt(obj: Fields, key: string): Option<Value> {
    if HasSpec(obj) && key in obj[SPEC].fields then Some(obj[SPEC].fields[key]) else None
  }

  /** Reading below the spec. */
  lemma NestedInSpec(obj: Fields, key: string)
    ensures match SpecAt(obj, key)
            case Some(v) => Nested(Object(obj), [SPEC, key]) == Found(v)
            case None => !Nested(Object(obj), [SPEC, key]).Found?
  {
    assert [SPEC, key][1..] == [key] && [key][1..] == [];
    if SPEC in obj && obj[SPEC].Object? {
      assert Nested(obj[SPEC], [key]) == if key in obj[SPEC].fields then Found(obj[SPEC].fields[key]) else Missing by {
        if key in obj[SPEC].fields { assert Nested(obj[SPEC].fields[key], []) == Found(obj[SPEC].fields[key]); }
      }
    }
  }

  lemma NestedInMeta(obj: Fields, key: string)
    requires Plain(obj)
    ensures Nested(Object(obj), [METADATA, key]) ==
            match MetaAt(obj, key) case Some(v) => Found(v) case None => Missing
  {
    assert [METADATA, key][1..] == [key] && [key][1..] == [];
    if METADATA in obj && key in obj[METADATA].fields {
      assert Nested(obj[METADATA].fields[key], []) == Found(obj[METADATA].fields[key]);
    }
  }

  lemma NestedAtTop(obj: Fields, key: string)
    requires key in obj
    ensures Nested(Object(obj), [key]) == Found(obj[key])
  {
    assert [key][1..] == [];
    assert Nested(obj[key], []) == Found(obj[key]);
  }

  lemma StringMapReads(m: map<string, string>)
    ensures AsStringMap(Found(StringMap(m))) == Some(m)
  {
    var v := StringMap(m).fields;
    assert (map k | k in v && v[k].Str? :: v[k].text) == m;
  }

  lemma StringListReads(s: seq<string>)
    ensures AsStringList(Found(StringList(s))) == Some(s)
  {
    var v := StringList(s).items;
    assert seq(|v|, i requires 0 <= i < |v| => if v[i].Str? then v[i].text else "") == s;
  }

  /** The getters undo the setters on every piece of metadata, nil and empty ones included, and
      adding a spec does not disturb them. */
  lemma HeaderReads(kind: string, apiVersion: string, m: ObjectMeta, spec: Value)
    ensures var o := Header(kind, apiVersion, m)[SPEC := spec];
            GetKind(o) == kind && GetAPIVersion(o) == apiVersion && GetMeta(o) == m
  {
    HeaderHolds(kind, apiVersion, m);
    KeysDiffer();
    var o := Header(kind, apiVersion, m)[SPEC := spec];
    NestedAtTop(o, KIND);
    NestedAtTop(o, API_VERSION);
    MetaReads(o, m);
  }

  /** The metadata says m. */
  ghost predicate Says(o: Fields, m: ObjectMeta) {
    && MetaAt(o, NAME) == NonEmpty(m.name)
    && MetaAt(o, NAMESPACE) == NonEmpty(m.space)
    && MetaAt(o, LABELS) == MapOrNil(m.labels)
    && MetaAt(o, ANNOTATIONS) == MapOrNil(m.annotations)
    && MetaAt(o, RESOURCE_VERSION) == NonEmpty(m.resourceVersion)
    && MetaAt(o, MANAGED_FIELDS) == ListOrNil(m.managedFields)
    && MetaAt(o, UID) == NonEmpty(m.uid)
  }

  lemma MetaReads(o: Fields, m: ObjectMeta)
    requires Plain(o) && Says(o, m)
    ensures GetMeta(o) == m
  {
    StringReads(o, NAME, m.name);
    StringReads(o, NAMESPACE, m.space);
    StringReads(o, RESOURCE_VERSION, m.resourceVersion);
    StringReads(o, UID, m.uid);
    MapReads(o, LABELS, m.labels);
    MapReads(o, ANNOTATIONS, m.annotations);
    ListReads(o, MANAGED_FIELDS, m.managedFields);
  }

  lemma ListReads(o: Fields, key: string, m: Option<seq<string>>)
    requires Plain(o) && MetaAt(o, key) == ListOrNil(m)
    ensures AsStringList(Nested(Object(o), [METADATA, key])) == m
  {
    NestedInMeta(o, key);
    if m.Some? { StringListReads(m.value); }
  }

  lemma StringReads(o: Fields, key: string, s: string)
    requires Plain(o) && MetaAt(o, key) == NonEmpty(s)
    ensures OrEmpty(NestedString(o, [METADATA, key])) == s
  {
    NestedInMeta(o, key);
  }

  lemma MapReads(o: Fields, key: string, m: Option<map<string, string>>)
    requires Plain(o) && MetaAt(o, key) == MapOrNil(m)
    ensures AsStringMap(Nested(Object(o), [METADATA, key])) == m
  {
    NestedInMeta(o, key);
    if m.Some? { StringMapReads(m.value); }
  }

  // ---- Objects that hold nothing but what is carried over ----

  predicate AllStr(m: Fields) { forall k :: k in m ==> m[k].Str? }

  /** A metadata field as one of the setters leaves it. */
  predicate CarriedField(key: string, v: Value) {
    if key in {NAME, NAMESPACE, RESOURCE_VERSION, UID} then v.Str? && v.text != ""
    else if key in {LABELS, ANNOTATIONS} then v.Object? && AllStr(v.fields)
    else key == MANAGED_FIELDS && v.List? && forall i :: 0 <= i < |v.items| ==> v.items[i].Str?
  }

  /** No metadata map at all, or one with some of the seven carried fields and no others. */
  predicate CarriedMeta(obj: Fields) {
    METADATA in obj ==>
      && obj[METADATA].Object? && obj[METADATA].fields != map[]
      && forall k :: k in obj[METADATA].fields ==> CarriedField(k, obj[METADATA].fields[k])
  }

  /** Kind, version, carried metadata, a spec, and nothing else. */
  predicate CarriedObject(obj: Fields) {
    && obj.Keys <= {KIND, API_VERSION, METADATA, SPEC}
    && KIND in obj && obj[KIND].Str? && API_VERSION in obj && obj[API_VERSION].Str?
    && CarriedMeta(obj)
  }

  lemma PutIsCarried(obj: Fields, key: string, v: Option<Value>)
    requires CarriedMeta(obj) && MetaAt(obj, key).None? && (v.Some? ==> CarriedField(key, v.value))
    ensures CarriedMeta(Put(obj, key, v)) && Put(obj, key, v).Keys <= obj.Keys + {METADATA}
  {
    if v.Some? {
      SetBelow(obj, METADATA, key, v.value);
      assert key in Put(obj, key, v)[METADATA].fields;
    } else if METADATA in obj {
      assert obj[METADATA].fields - {key} == obj[METADATA].fields;
    }
  }

  /** One more setter on a header that is still without `key` and all of `later`. */
  lemma PutNext(obj: Fields, key: string, v: Option<Value>, later: set<string>)
    requires CarriedMeta(obj) && (v.Some? ==> CarriedField(key, v.value)) && key !in later
    requires forall k :: k in later + {key} ==> MetaAt(obj, k).None?
    ensures var o := Put(obj, key, v);
            && CarriedMeta(o) && o.Keys <= obj.Keys + {METADATA}
            && forall k :: k in later ==> MetaAt(o, k).None?
  {
    PutIsCarried(obj, key, v);
    PutIsLocal(obj, key, v);
    forall k | k in later ensures MetaAt(Put(obj, key, v), k).None? { assert MetaAt(obj, k).None?; }
  }

  lemma HeaderIsCarried(kind: string, apiVersion: string, m: ObjectMeta)
    ensures var o := Header(kind, apiVersion, m); CarriedMeta(o) && o.Keys <= {KIND, API_VERSION, METADATA}
  {
    var o0: Fields := map[KIND := Str(kind)][API_VERSION := Str(apiVersion)];
    KeysDiffer();
    PutNext(o0, NAME, NonEmpty(m.name), {NAMESPACE, LABELS, ANNOTATIONS, RESOURCE_VERSION, MANAGED_FIELDS, UID});
    var o1 := Put(o0, NAME, NonEmpty(m.name));
    PutNext(o1, NAMESPACE, NonEmpty(m.space), {LABELS, ANNOTATIONS, RESOURCE_VERSION, MANAGED_FIELDS, UID});
    var o2 := Put(o1, NAMESPACE, NonEmpty(m.space));
    PutNext(o2, LABELS, MapOrNil(m.labels), {ANNOTATIONS, RESOURCE_VERSION, MANAGED_FIELDS, UID});
    LaterFieldsAreCarried(Put(o2, LABELS, MapOrNil(m.labels)), m);
  }

  lemma LaterFieldsAreCarried(o3: Fields, m: ObjectMeta)
    requires CarriedMeta(o3) && o3.Keys <= {KIND, API_VERSION, METADATA}
    requires forall k :: k in {ANNOTATIONS, RESOURCE_VERSION, MANAGED_FIELDS, UID} ==> MetaAt(o3, k).None?
    ensures var o4 := Put(o3, ANNOTATIONS, MapOrNil(m.annotations));
            var o5 := Put(o4, RESOURCE_VERSION, NonEmpty(m.resourceVersion));
            var o6 := Put(o5, MANAGED_FIELDS, ListOrNil(m.managedFields));
            var o7 := Put(o6, UID, NonEmpty(m.uid));
            CarriedMeta(o7) && o7.Keys <= {KIND, API_VERSION, METADATA}
  {
    PutNext(o3, ANNOTATIONS, MapOrNil(m.annotations), {RESOURCE_VERSION, MANAGED_FIELDS, UID});
    var o4 := Put(o3, ANNOTATIONS, MapOrNil(m.annotations));
    PutNext(o4, RESOURCE_VERSION, NonEmpty(m.resourceVersion), {MANAGED_FIELDS, UID});
    var o5 := Put(o4, RESOURCE_VERSION, NonEmpty(m.resourceVersion));
    PutNext(o5, MANAGED_FIELDS, ListOrNil(m.managedFields), {UID});
    var o6 := Put(o5, MANAGED_FIELDS, ListOrNil(m.managedFields));
    PutNext(o6, UID, NonEmpty(m.uid), {});
  }

  // A carried field is what its setter writes for the value that its getter reads.

  lemma StringWrites(o: Fields, key: string)
    requires CarriedMeta(o) && key in {NAME, NAMESPACE, RESOURCE_VERSION, UID}
    ensures MetaAt(o, key) == NonEmpty(OrEmpty(NestedString(o, [METADATA, key])))
  {
    NestedInMeta(o, key);
  }

  lemma MapWrites(o: Fields, key: string)
    requires CarriedMeta(o) && key in {LABELS, ANNOTATIONS}
    ensures MetaAt(o, key) == MapOrNil(AsStringMap(Nested(Object(o), [METADATA, key])))
  {
    NestedInMeta(o, key);
    if MetaAt(o, key).Some? {
      var v := MetaAt(o, key).value.fields;
      assert StringMap(map k | k in v && v[k].Str? :: v[k].text).fields == v;
    }
  }

  lemma ListWrites(o: Fields, key: string)
    requires CarriedMeta(o) && key == MANAGED_FIELDS
    ensures MetaAt(o, key) == ListOrNil(AsStringList(Nested(Object(o), [METADATA, key])))
  {
    NestedInMeta(o, key);
    if MetaAt(o, key).Some? {
      var v := MetaAt(o, key).value.items;
      var texts := seq(|v|, i requires 0 <= i < |v| => if v[i].Str? then v[i].text else "");
      assert StringList(texts).items == v;
    }
  }

  lemma MetaWrites(o: Fields)
    requires CarriedMeta(o)
    ensures Says(o, GetMeta(o))
  {
    StringWrites(o, NAME);
    StringWrites(o, NAMESPACE);
    StringWrites(o, RESOURCE_VERSION);
    StringWrites(o, UID);
    MapWrites(o, LABELS);
    MapWrites(o, ANNOTATIONS);
    ListWrites(o, MANAGED_FIELDS);
  }

  /** Two carried metadata maps that say the same are the same. */
  lemma SayingDetermines(a: Fields, b: Fields, m: ObjectMeta)
    requires CarriedMeta(a) && CarriedMeta(b) && Says(a, m) && Says(b, m)
    ensures METADATA in a <==> METADATA in b
    ensures METADATA in a ==> a[METADATA] == b[METADATA]
  {
    forall k ensures MetaAt(a, k) == MetaAt(b, k) {
      if MetaAt(a, k).Some? { assert CarriedField(k, a[METADATA].fields[k]); }
      if MetaAt(b, k).Some? { assert CarriedField(k, b[METADATA].fields[k]); }
    }
    if METADATA in a { SameEntries(a, b); }
    if METADATA in b { SameEntries(b, a); }
  }

  lemma SameEntries(a: Fields, b: Fields)
    requires CarriedMeta(a) && CarriedMeta(b) && METADATA in a
    requires forall k :: MetaAt(a, k) == MetaAt(b, k)
    ensures METADATA in b && a[METADATA] == b[METADATA]
  {
    var k0 :| k0 in a[METADATA].fields;
    assert MetaAt(a, k0).Some? && MetaAt(b, k0).Some?;
    var x, y := a[METADATA].fields, b[METADATA].fields;
    forall k ensures (k in x <==> k in y) && (k in x ==> x[k] == y[k]) { assert MetaAt(a, k) == MetaAt(b, k); }
    assert x == y;
  }

  /** An object is written again as it was read if and only if it holds nothing but what is carried
      over. */
  lemma HeaderRebuildsIffCarried(o: Fields)
    requires SPEC in o
    ensures o == Header(GetKind(o), GetAPIVersion(o), GetMeta(o))[SPEC := o[SPEC]] <==> CarriedObject(o)
  {
    var h := Header(GetKind(o), GetAPIVersion(o), GetMeta(o));
    KeysDiffer();
    HeaderHolds(GetKind(o), GetAPIVersion(o), GetMeta(o));
    HeaderIsCarried(GetKind(o), GetAPIVersion(o), GetMeta(o));
    if CarriedObject(o) {
      MetaWrites(o);
      SayingDetermines(o, h, GetMeta(o));
      NestedAtTop(o, KIND);
      NestedAtTop(o, API_VERSION);
      var w := h[SPEC := o[SPEC]];
      forall k ensures (k in o <==> k in w) && (k in o ==> o[k] == w[k]) {
        if k in o || k in w { assert k in {KIND, API_VERSION, METADATA, SPEC}; }
      }
      assert o == w;
    }
  }
}
