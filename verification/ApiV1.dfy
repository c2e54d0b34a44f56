/** Version v1 of the ChaosMonkeyConfiguration resource and its untyped form. */
module ApiV1 {
  import opened Common
  import opened Unstructured
  import opened Durations

  const VERSION := "cm.massix.github.io/v1"

  datatype Spec = Spec(
    enabled: bool, minReplicas: int, maxReplicas: int, scalingMode: string, deployment: string, timeout: int)

  datatype Cmc = Cmc(kind: string, apiVersion: string, meta: ObjectMeta, spec: Spec)

  /** The untyped form: the header and one nested spec. */
  function Encode(format: Format, c: Cmc): Fields {
    Header(c.kind, c.apiVersion, c.meta)[SPEC := Object(EncodeSpec(format, c.spec))]
  }

  function EncodeSpec(format: Format, s: Spec): Fields {
    map[ENABLED := Bool(s.enabled),
        MIN_REPLICAS := Int(s.minReplicas),
        MAX_REPLICAS := Int(s.maxReplicas),
        SCALING_MODE := Str(s.scalingMode),
        DEPLOYMENT := Object(map[NAME := Str(s.deployment)]),
        TIMEOUT := Str(format.show(s.timeout))]
  }

  /** ToUnstructured writes field after field into the nested map and never meets an error. */
  method ToUnstructured(format: Format, c: Cmc) returns (r: Result<Fields, string>)
    ensures r == Ok(Encode(format, c))
  {
    var b := new Builder();
    b.SetHeader(c.kind, c.apiVersion, c.meta);
    ghost var h := b.fields;
    HeaderHolds(c.kind, c.apiVersion, c.meta);
    ghost var s: Fields := map[];
    var e1 := b.SetSpecField(h, s, ENABLED, Bool(c.spec.enabled));
    s := s[ENABLED := Bool(c.spec.enabled)];
    var e2 := b.SetSpecField(h, s, MIN_REPLICAS, Int(c.spec.minReplicas));
    s := s[MIN_REPLICAS := Int(c.spec.minReplicas)];
    var e3 := b.SetSpecField(h, s, MAX_REPLICAS, Int(c.spec.maxReplicas));
    s := s[MAX_REPLICAS := Int(c.spec.maxReplicas)];
    var e4 := b.SetSpecField(h, s, SCALING_MODE, Str(c.spec.scalingMode));
    s := s[SCALING_MODE := Str(c.spec.scalingMode)];
    var e5 := b.SetSpecSubfield(h, s, DEPLOYMENT, NAME, Str(c.spec.deployment));
    s := s[DEPLOYMENT := Object(map[NAME := Str(c.spec.deployment)])];
    var e6 := b.SetSpecField(h, s, TIMEOUT, Str(format.show(c.spec.timeout)));
    s := s[TIMEOUT := Str(format.show(c.spec.timeout))];
    if e1 != None || e2 != None || e3 != None || e4 != None || e5 != None || e6 != None {
      return Err("cannot build the object");
    }
    assert s == EncodeSpec(format, c.spec);
    r := Ok(b.fields);
  }

  /** FromUnstructured: all accessor errors first, then every field that was not found. */
  function FromUnstructured(format: Format, obj: Fields): Result<Cmc, seq<string>> {
    if GetAPIVersion(obj) != VERSION then Err(["Wrong APIVersion: " + GetAPIVersion(obj)])
    else if GetKind(obj) != RESOURCE_KIND then Err(["Wrong Kind: " + GetKind(obj)])
    else
      var deployment := NestedString(obj, [SPEC, DEPLOYMENT, NAME]);
      var timeout := NestedString(obj, [SPEC, TIMEOUT]);
      var minReplicas := NestedInt64(obj, [SPEC, MIN_REPLICAS]);
      var maxReplicas := NestedInt64(obj, [SPEC, MAX_REPLICAS]);
      var enabled := NestedBool(obj, [SPEC, ENABLED]);
      var scalingMode := NestedString(obj, [SPEC, SCALING_MODE]);
      var errors :=
        AccessErrors(deployment) + AccessErrors(timeout) + AccessErrors(minReplicas)
        + AccessErrors(maxReplicas) + AccessErrors(enabled) + AccessErrors(scalingMode)
        + NotFound(".spec.deploymentName", deployment) + NotFound(".spec.timeout", timeout)
        + NotFound(".spec.minReplicas", minReplicas) + NotFound(".spec.maxReplicas", maxReplicas)
        + NotFound(".spec.enabled", enabled) + NotFound(".spec.scalingMode", scalingMode);
      if errors != [] then Err(errors)
      else
        Ok(Cmc(GetKind(obj), GetAPIVersion(obj), GetMeta(obj),
               Spec(enabled.value, minReplicas.value, maxReplicas.value, scalingMode.value, deployment.value,
                    format.ParseOrDefault(timeout.value))))
  }

  /** The shape that FromUnstructured accepts. */
  predicate WellShaped(obj: Fields) {
    && GetAPIVersion(obj) == VERSION && GetKind(obj) == RESOURCE_KIND
    && SpecShaped(obj)
  }

  predicate SpecShaped(obj: Fields) {
    && HasSpec(obj)
    && var s := obj[SPEC].fields;
    && ENABLED in s && s[ENABLED].Bool?
    && MIN_REPLICAS in s && s[MIN_REPLICAS].Int?
    && MAX_REPLICAS in s && s[MAX_REPLICAS].Int?
    && SCALING_MODE in s && s[SCALING_MODE].Str?
    && TIMEOUT in s && s[TIMEOUT].Str?
    && DEPLOYMENT in s && s[DEPLOYMENT].Object?
    && NAME in s[DEPLOYMENT].fields && s[DEPLOYMENT].fields[NAME].Str?
  }

  lemma NestedDeploymentName(obj: Fields)
    ensures var f := Nested(Object(obj), [SPEC, DEPLOYMENT, NAME]);
            match SpecAt(obj, DEPLOYMENT)
            case Some(Object(d)) => if NAME in d then f == Found(d[NAME]) else !f.Found?
            case _ => !f.Found?
  {
    var path := [SPEC, DEPLOYMENT, NAME];
    assert path[1..] == [DEPLOYMENT, NAME] && path[1..][1..] == [NAME] && [NAME][1..] == [];
    if SpecAt(obj, DEPLOYMENT).Some? && obj[SPEC].fields[DEPLOYMENT].Object? {
      var d := obj[SPEC].fields[DEPLOYMENT].fields;
      assert Nested(obj[SPEC], [DEPLOYMENT, NAME]) == Nested(Object(d), [NAME]);
      if NAME in d { assert Nested(d[NAME], []) == Found(d[NAME]); }
    } else if HasSpec(obj) {
      assert Nested(Object(obj), path) == Nested(obj[SPEC], [DEPLOYMENT, NAME]);
    }
  }

  /** FromUnstructured succeeds if and only if version and kind match and all six fields are
      there with the right type, and then it reads exactly these. */
  lemma AcceptsIffWellShaped(format: Format, obj: Fields)
    ensures FromUnstructured(format, obj).Ok? <==> WellShaped(obj)
    ensures WellShaped(obj) ==>
              var s := obj[SPEC].fields;
              FromUnstructured(format, obj) ==
              Ok(Cmc(RESOURCE_KIND, VERSION, GetMeta(obj),
                     Spec(s[ENABLED].flag, s[MIN_REPLICAS].number, s[MAX_REPLICAS].number, s[SCALING_MODE].text,
                          s[DEPLOYMENT].fields[NAME].text, format.ParseOrDefault(s[TIMEOUT].text))))
  {
    NestedInSpec(obj, ENABLED);
    NestedInSpec(obj, MIN_REPLICAS);
    NestedInSpec(obj, MAX_REPLICAS);
    NestedInSpec(obj, SCALING_MODE);
    NestedInSpec(obj, TIMEOUT);
    NestedDeploymentName(obj);
  }

  lemma EncodedSpecReads(format: Format, c: Cmc)
    ensures var o := Encode(format, c);
            var s := EncodeSpec(format, c.spec);
            && SpecShaped(o) && o[SPEC].fields == s
            && Spec(s[ENABLED].flag, s[MIN_REPLICAS].number, s[MAX_REPLICAS].number, s[SCALING_MODE].text,
                    s[DEPLOYMENT].fields[NAME].text, c.spec.timeout) == c.spec
            && s[TIMEOUT].text == format.show(c.spec.timeout)
  {
    KeysDiffer();
  }

  /** Reading undoes writing, on every field, if durations print coherently. */
  lemma RoundTrip(format: Format, c: Cmc)
    requires format.Coherent() && c.kind == RESOURCE_KIND && c.apiVersion == VERSION
    ensures FromUnstructured(format, Encode(format, c)) == Ok(c)
  {
    HeaderReads(c.kind, c.apiVersion, c.meta, Object(EncodeSpec(format, c.spec)));
    EncodedSpecReads(format, c);
    AcceptsIffWellShaped(format, Encode(format, c));
  }

  /** Nothing but what a resource carries, with the timeout as it would be printed: no other
      metadata, no unknown field. */
  predicate OnlyCarried(format: Format, obj: Fields) {
    && CarriedObject(obj)
    && SpecShaped(obj)
    && SpecOnlyCarried(format, obj[SPEC].fields)
  }

  predicate SpecOnlyCarried(format: Format, s: Fields) {
    && s.Keys == {ENABLED, MIN_REPLICAS, MAX_REPLICAS, SCALING_MODE, DEPLOYMENT, TIMEOUT}
    && s[DEPLOYMENT].Object? && s[DEPLOYMENT].fields.Keys == {NAME}
    && s[TIMEOUT].Str? && s[TIMEOUT].text == format.show(format.ParseOrDefault(s[TIMEOUT].text))
  }

  /** Writing undoes reading if and only if the object holds nothing else. */
  lemma WritesBackIffOnlyCarried(format: Format, obj: Fields)
    requires FromUnstructured(format, obj).Ok?
    ensures Encode(format, FromUnstructured(format, obj).value) == obj <==> OnlyCarried(format, obj)
  {
    var c := FromUnstructured(format, obj).value;
    AcceptsIffWellShaped(format, obj);
    HeaderRebuildsIffCarried(obj);
    SpecWritesBack(format, obj);
    assert Encode(format, c) == Header(c.kind, c.apiVersion, c.meta)[SPEC := Object(EncodeSpec(format, c.spec))];
    assert Encode(format, c)[SPEC] == Object(EncodeSpec(format, c.spec));
  }

  lemma SpecWritesBack(format: Format, obj: Fields)
    requires FromUnstructured(format, obj).Ok? && HasSpec(obj)
    ensures Object(EncodeSpec(format, FromUnstructured(format, obj).value.spec)) == obj[SPEC] <==>
            SpecOnlyCarried(format, obj[SPEC].fields)
  {
    AcceptsIffWellShaped(format, obj);
    KeysDiffer();
    var s, w := obj[SPEC].fields, EncodeSpec(format, FromUnstructured(format, obj).value.spec);
    assert w.Keys == {ENABLED, MIN_REPLICAS, MAX_REPLICAS, SCALING_MODE, DEPLOYMENT, TIMEOUT};
    assert w[DEPLOYMENT].fields.Keys == {NAME};
    if SpecOnlyCarried(format, s) {
      assert s[DEPLOYMENT].fields == w[DEPLOYMENT].fields;
      forall k | k in s ensures s[k] == w[k] {}
      assert s == w;
    }
  }

  /** So the resource that an object is the writing of can only be the one that it reads as. */
  lemma WritingOfIff(format: Format, c: Cmc, obj: Fields)
    requires format.Coherent() && FromUnstructured(format, obj).Ok?
    requires c.kind == RESOURCE_KIND && c.apiVersion == VERSION
    ensures Encode(format, c) == obj <==> OnlyCarried(format, obj) && FromUnstructured(format, obj) == Ok(c)
  {
    RoundTrip(format, c);
    WritesBackIffOnlyCarried(format, obj);
  }
}
