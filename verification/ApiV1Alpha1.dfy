/** Version v1alpha1 of the ChaosMonkeyConfiguration resource and its untyped form.  Timeouts are
    uninterpreted strings here.
 */
module ApiV1Alpha1 {
  import opened Common
  import opened Unstructured

  const VERSION := "cm.massix.github.io/v1alpha1"

  datatype Spec = Spec(
    deployment: string, timeout: string, minReplicas: int, maxReplicas: int, enabled: bool, podMode: bool)

  datatype Cmc = Cmc(kind: string, apiVersion: string, meta: ObjectMeta, spec: Spec)

  function Encode(c: Cmc): Fields {
    Header(c.kind, c.apiVersion, c.meta)[SPEC := Object(EncodeSpec(c.spec))]
  }

  function EncodeSpec(s: Spec): Fields {
    map[DEPLOYMENT_NAME := Str(s.deployment),
        TIMEOUT := Str(s.timeout),
        MIN_REPLICAS := Int(s.minReplicas),
        MAX_REPLICAS := Int(s.maxReplicas),
        ENABLED := Bool(s.enabled),
        POD_MODE := Bool(s.podMode)]
  }

  /** ToUnstructured writes field after field into the nested map and never meets an error. */
  method ToUnstructured(c: Cmc) returns (r: Result<Fields, string>)
    ensures r == Ok(Encode(c))
  {
    var b := new Builder();
    b.SetHeader(c.kind, c.apiVersion, c.meta);
    ghost var h := b.fields;
    HeaderHolds(c.kind, c.apiVersion, c.meta);
    ghost var s: Fields := map[];
    var e1 := b.SetSpecField(h, s, DEPLOYMENT_NAME, Str(c.spec.deployment));
    s := s[DEPLOYMENT_NAME := Str(c.spec.deployment)];
    var e2 := b.SetSpecField(h, s, TIMEOUT, Str(c.spec.timeout));
    s := s[TIMEOUT := Str(c.spec.timeout)];
    var e3 := b.SetSpecField(h, s, MIN_REPLICAS, Int(c.spec.minReplicas));
    s := s[MIN_REPLICAS := Int(c.spec.minReplicas)];
    var e4 := b.SetSpecField(h, s, MAX_REPLICAS, Int(c.spec.maxReplicas));
    s := s[MAX_REPLICAS := Int(c.spec.maxReplicas)];
    var e5 := b.SetSpecField(h, s, ENABLED, Bool(c.spec.enabled));
    s := s[ENABLED := Bool(c.spec.enabled)];
    var e6 := b.SetSpecField(h, s, POD_MODE, Bool(c.spec.podMode));
    s := s[POD_MODE := Bool(c.spec.podMode)];
    if e1 != None || e2 != None || e3 != None || e4 != None || e5 != None || e6 != None {
      return Err("cannot build the object");
    }
    assert s == EncodeSpec(c.spec);
    r := Ok(b.fields);
  }

  /** FromUnstructured: all accessor errors first, then every field that was not found. */
  function FromUnstructured(obj: Fields): Result<Cmc, seq<string>> {
    if GetAPIVersion(obj) != VERSION then Err(["Wrong APIVersion: " + GetAPIVersion(obj)])
    else if GetKind(obj) != RESOURCE_KIND then Err(["Wrong Kind: " + GetKind(obj)])
    else
      var deployment := NestedString(obj, [SPEC, DEPLOYMENT_NAME]);
      var timeout := NestedString(obj, [SPEC, TIMEOUT]);
      var minReplicas := NestedInt64(obj, [SPEC, MIN_REPLICAS]);
      var maxReplicas := NestedInt64(obj, [SPEC, MAX_REPLICAS]);
      var enabled := NestedBool(obj, [SPEC, ENABLED]);
      var podMode := NestedBool(obj, [SPEC, POD_MODE]);
      var errors :=
        AccessErrors(deployment) + AccessErrors(timeout) + AccessErrors(minReplicas)
        + AccessErrors(maxReplicas) + AccessErrors(enabled) + AccessErrors(podMode)
        + NotFound(".spec.deploymentName", deployment) + NotFound(".spec.timeout", timeout)
        + NotFound(".spec.minReplicas", minReplicas) + NotFound(".spec.maxReplicas", maxReplicas)
        + NotFound(".spec.enabled", enabled) + NotFound(".spec.podMode", podMode);
      if errors != [] then Err(errors)
      else
        Ok(Cmc(GetKind(obj), GetAPIVersion(obj), GetMeta(obj),
               Spec(deployment.value, timeout.value, minReplicas.value, maxReplicas.value, enabled.value,
                    podMode.value)))
  }

  /** The shape that FromUnstructured accepts. */
  predicate WellShaped(obj: Fields) {
    && GetAPIVersion(obj) == VERSION && GetKind(obj) == RESOURCE_KIND
    && SpecShaped(obj)
  }

  predicate SpecShaped(obj: Fields) {
    && HasSpec(obj)
    && var s := obj[SPEC].fields;
    && DEPLOYMENT_NAME in s && s[DEPLOYMENT_NAME].Str?
    && TIMEOUT in s && s[TIMEOUT].Str?
    && MIN_REPLICAS in s && s[MIN_REPLICAS].Int?
    && MAX_REPLICAS in s && s[MAX_REPLICAS].Int?
    && ENABLED in s && s[ENABLED].Bool?
    && POD_MODE in s && s[POD_MODE].Bool?
  }

  /** FromUnstructured succeeds if and only if version and kind match and all six fields are
      there with the right type, and then it reads exactly these. */
  lemma AcceptsIffWellShaped(obj: Fields)
    ensures FromUnstructured(obj).Ok? <==> WellShaped(obj)
    ensures WellShaped(obj) ==>
              var s := obj[SPEC].fields;
              FromUnstructured(obj) ==
              Ok(Cmc(RESOURCE_KIND, VERSION, GetMeta(obj),
                     Spec(s[DEPLOYMENT_NAME].text, s[TIMEOUT].text, s[MIN_REPLICAS].number, s[MAX_REPLICAS].number,
                          s[ENABLED].flag, s[POD_MODE].flag)))
  {
    NestedInSpec(obj, DEPLOYMENT_NAME);
    NestedInSpec(obj, TIMEOUT);
    NestedInSpec(obj, MIN_REPLICAS);
    NestedInSpec(obj, MAX_REPLICAS);
    NestedInSpec(obj, ENABLED);
    NestedInSpec(obj, POD_MODE);
  }

  lemma EncodedSpecReads(c: Cmc)
    ensures var o := Encode(c);
            var s := EncodeSpec(c.spec);
            && SpecShaped(o) && o[SPEC].fields == s
            && Spec(s[DEPLOYMENT_NAME].text, s[TIMEOUT].text, s[MIN_REPLICAS].number, s[MAX_REPLICAS].number,
                    s[ENABLED].flag, s[POD_MODE].flag) == c.spec
  {
    KeysDiffer();
  }

  /** Reading undoes writing, on every field. */
  lemma RoundTrip(c: Cmc)
    requires c.kind == RESOURCE_KIND && c.apiVersion == VERSION
    ensures FromUnstructured(Encode(c)) == Ok(c)
  {
    HeaderReads(c.kind, c.apiVersion, c.meta, Object(EncodeSpec(c.spec)));
    EncodedSpecReads(c);
    AcceptsIffWellShaped(Encode(c));
  }

  /** Nothing but what a resource carries: no other metadata, no unknown field. */
  predicate OnlyCarried(obj: Fields) {
    && CarriedObject(obj)
    && HasSpec(obj)
    && obj[SPEC].fields.Keys == {DEPLOYMENT_NAME, TIMEOUT, MIN_REPLICAS, MAX_REPLICAS, ENABLED, POD_MODE}
  }

  /** Writing undoes reading if and only if the object holds nothing else. */
  lemma WritesBackIffOnlyCarried(obj: Fields)
    requires FromUnstructured(obj).Ok?
    ensures Encode(FromUnstructured(obj).value) == obj <==> OnlyCarried(obj)
  {
    var c := FromUnstructured(obj).value;
    AcceptsIffWellShaped(obj);
    HeaderRebuildsIffCarried(obj);
    SpecWritesBack(obj);
    assert Encode(c) == Header(c.kind, c.apiVersion, c.meta)[SPEC := Object(EncodeSpec(c.spec))];
    assert Encode(c)[SPEC] == Object(EncodeSpec(c.spec));
  }

  lemma SpecWritesBack(obj: Fields)
    requires FromUnstructured(obj).Ok? && HasSpec(obj)
    ensures Object(EncodeSpec(FromUnstructured(obj).value.spec)) == obj[SPEC] <==>
            obj[SPEC].fields.Keys == {DEPLOYMENT_NAME, TIMEOUT, MIN_REPLICAS, MAX_REPLICAS, ENABLED, POD_MODE}
  {
    AcceptsIffWellShaped(obj);
    KeysDiffer();
    var s, w := obj[SPEC].fields, EncodeSpec(FromUnstructured(obj).value.spec);
    assert w.Keys == {DEPLOYMENT_NAME, TIMEOUT, MIN_REPLICAS, MAX_REPLICAS, ENABLED, POD_MODE};
    if s.Keys == w.Keys {
      forall k | k in s ensures s[k] == w[k] {}
      assert s == w;
    }
  }

  /** So the resource that an object is the writing of can only be the one that it reads as. */
  lemma WritingOfIff(c: Cmc, obj: Fields)
    requires FromUnstructured(obj).Ok? && c.kind == RESOURCE_KIND && c.apiVersion == VERSION
    ensures Encode(c) == obj <==> OnlyCarried(obj) && FromUnstructured(obj) == Ok(c)
  {
    RoundTrip(c);
    WritesBackIffOnlyCarried(obj);
  }
}
