/** The conversion webhook: batches of untyped objects between v1alpha1 and v1, and the reviews it
    answers with.
 */
module Conversion {
  import opened Common
  import opened Children
  import opened Unstructured
  import opened Durations
  import V1 = ApiV1
  import Alpha = ApiV1Alpha1

  // ---- One resource ----

  function Upgrade(format: Format, c: Alpha.Cmc): V1.Cmc {
    V1.Cmc(c.kind, V1.VERSION, c.meta,
           V1.Spec(c.spec.enabled, c.spec.minReplicas, c.spec.maxReplicas,
                   if c.spec.podMode then KILL_POD else RANDOM_SCALE,
                   c.spec.deployment, format.ParseOrDefault(c.spec.timeout)))
  }

  function Downgrade(format: Format, c: V1.Cmc): Alpha.Cmc {
    Alpha.Cmc(c.kind, Alpha.VERSION, c.meta,
              Alpha.Spec(c.spec.deployment, format.show(c.spec.timeout), c.spec.minReplicas, c.spec.maxReplicas,
                         c.spec.enabled, c.spec.scalingMode == KILL_POD))
  }

  /** The timeout as a round trip through v1 leaves it: printed again, or ten minutes printed. */
  function Canonical(format: Format, timeout: string): string {
    format.show(format.ParseOrDefault(timeout))
  }

  function Canonized(format: Format, c: Alpha.Cmc): Alpha.Cmc {
    c.(spec := c.spec.(timeout := Canonical(format, c.spec.timeout)))
  }

  /** The scaling mode as a round trip through v1alpha1 leaves it. */
  function Collapsed(mode: string): string {
    if mode == KILL_POD then KILL_POD else RANDOM_SCALE
  }

  function Collapse(c: V1.Cmc): V1.Cmc {
    c.(spec := c.spec.(scalingMode := Collapsed(c.spec.scalingMode)))
  }

  /** The modes that v1alpha1 has a word for. */
  predicate Survives(mode: string) { mode == RANDOM_SCALE || mode == KILL_POD }

  lemma ModesDiffer()
    ensures KILL_POD != RANDOM_SCALE && RANDOM_SCALE != ANTI_PRESSURE && KILL_POD != ANTI_PRESSURE
  {
  }

  // ---- One object ----

  function UpgradeObject(format: Format, obj: Fields): Result<Fields, seq<string>> {
    match Alpha.FromUnstructured(obj)
    case Err(e) => Err(e)
    case Ok(c) => Ok(V1.Encode(format, Upgrade(format, c)))
  }

  function DowngradeObject(format: Format, obj: Fields): Result<Fields, seq<string>> {
    match V1.FromUnstructured(format, obj)
    case Err(e) => Err(e)
    case Ok(c) => Ok(Alpha.Encode(Downgrade(format, c)))
  }

  /** What each field of a converted resource is. */
  predicate Upgraded(format: Format, a: Alpha.Cmc, b: V1.Cmc) {
    && b.kind == a.kind && b.apiVersion == V1.VERSION && b.meta == a.meta
    && b.spec.enabled == a.spec.enabled && b.spec.deployment == a.spec.deployment
    && b.spec.minReplicas == a.spec.minReplicas && b.spec.maxReplicas == a.spec.maxReplicas
    && (a.spec.podMode ==> b.spec.scalingMode == KILL_POD)
    && (!a.spec.podMode ==> b.spec.scalingMode == RANDOM_SCALE)
    && (format.parse(a.spec.timeout).Some? ==> Some(b.spec.timeout) == format.parse(a.spec.timeout))
    && (format.parse(a.spec.timeout).None? ==> b.spec.timeout == TEN_MINUTES)
  }

  predicate Downgraded(format: Format, b: V1.Cmc, a: Alpha.Cmc) {
    && a.kind == b.kind && a.apiVersion == Alpha.VERSION && a.meta == b.meta
    && a.spec.enabled == b.spec.enabled && a.spec.deployment == b.spec.deployment
    && a.spec.minReplicas == b.spec.minReplicas && a.spec.maxReplicas == b.spec.maxReplicas
    && (a.spec.podMode <==> b.spec.scalingMode == KILL_POD)
    && a.spec.timeout == format.show(b.spec.timeout)
  }

  /** An object converts up if and only if it has the shape of v1alpha1, and the result reads as the
      same resource, field by field. */
  lemma UpgradeKeepsFields(format: Format, obj: Fields)
    requires format.Coherent()
    ensures UpgradeObject(format, obj).Ok? <==> Alpha.WellShaped(obj)
    ensures Alpha.WellShaped(obj) ==>
              var b := V1.FromUnstructured(format, UpgradeObject(format, obj).value);
              b.Ok? && Upgraded(format, Alpha.FromUnstructured(obj).value, b.value)
  {
    Alpha.AcceptsIffWellShaped(obj);
    if Alpha.WellShaped(obj) { V1.RoundTrip(format, Upgrade(format, Alpha.FromUnstructured(obj).value)); }
  }

  lemma DowngradeKeepsFields(format: Format, obj: Fields)
    ensures DowngradeObject(format, obj).Ok? <==> V1.WellShaped(obj)
    ensures V1.WellShaped(obj) ==>
              var a := Alpha.FromUnstructured(DowngradeObject(format, obj).value);
              a.Ok? && Downgraded(format, V1.FromUnstructured(format, obj).value, a.value)
  {
    V1.AcceptsIffWellShaped(format, obj);
    if V1.WellShaped(obj) { Alpha.RoundTrip(Downgrade(format, V1.FromUnstructured(format, obj).value)); }
  }

  /** v1alpha1 to v1 and back: of what a resource carries nothing changes but the timeout, which
      becomes canonical. */
  lemma AlphaRoundTrip(format: Format, obj: Fields)
    requires format.Coherent() && UpgradeObject(format, obj).Ok?
    ensures var c := Canonized(format, Alpha.FromUnstructured(obj).value);
            && DowngradeObject(format, UpgradeObject(format, obj).value) == Ok(Alpha.Encode(c))
            && Alpha.FromUnstructured(Alpha.Encode(c)) == Ok(c)
  {
    var c := Alpha.FromUnstructured(obj).value;
    Alpha.AcceptsIffWellShaped(obj);
    V1.RoundTrip(format, Upgrade(format, c));
    ModesDiffer();
    assert Downgrade(format, Upgrade(format, c)) == Canonized(format, c);
    Alpha.RoundTrip(Canonized(format, c));
  }

  lemma CanonicalIsStable(format: Format, timeout: string)
    requires format.Coherent()
    ensures Canonical(format, Canonical(format, timeout)) == Canonical(format, timeout)
  {
    assert format.parse(format.show(format.ParseOrDefault(timeout))) == Some(format.ParseOrDefault(timeout));
  }

  /** A second round trip returns the very object that the first one returned. */
  lemma SecondAlphaRoundTripIsIdentity(format: Format, obj: Fields)
    requires format.Coherent() && UpgradeObject(format, obj).Ok?
    ensures var back := DowngradeObject(format, UpgradeObject(format, obj).value);
            && back.Ok?
            && UpgradeObject(format, back.value).Ok?
            && DowngradeObject(format, UpgradeObject(format, back.value).value) == back
  {
    AlphaRoundTrip(format, obj);
    var back := DowngradeObject(format, UpgradeObject(format, obj).value).value;
    AlphaRoundTrip(format, back);
    CanonicalIsStable(format, Alpha.FromUnstructured(obj).value.spec.timeout);
  }

  /** v1 to v1alpha1 and back returns the resource with its scaling mode collapsed: of what it
      carries the way is the identity if and only if the mode is randomScale or killPod, so
      antiPressure is lost. */
  lemma V1RoundTrip(format: Format, obj: Fields)
    requires format.Coherent() && DowngradeObject(format, obj).Ok?
    ensures var c := V1.FromUnstructured(format, obj).value;
            && UpgradeObject(format, DowngradeObject(format, obj).value) == Ok(V1.Encode(format, Collapse(c)))
            && V1.FromUnstructured(format, V1.Encode(format, Collapse(c))) == Ok(Collapse(c))
            && (Collapse(c) == c <==> Survives(c.spec.scalingMode))
  {
    var c := V1.FromUnstructured(format, obj).value;
    V1.AcceptsIffWellShaped(format, obj);
    Alpha.RoundTrip(Downgrade(format, c));
    assert format.parse(format.show(c.spec.timeout)) == Some(c.spec.timeout);
    assert Upgrade(format, Downgrade(format, c)) == Collapse(c);
    V1.RoundTrip(format, Collapse(c));
  }

  // ---- One raw object ----

  /** What has been read has the fixed kind and version. */
  lemma AlphaReadIsTyped(obj: Fields)
    requires Alpha.FromUnstructured(obj).Ok?
    ensures var c := Alpha.FromUnstructured(obj).value; c.kind == RESOURCE_KIND && c.apiVersion == Alpha.VERSION
  {
    Alpha.AcceptsIffWellShaped(obj);
  }

  lemma V1ReadIsTyped(format: Format, obj: Fields)
    requires V1.FromUnstructured(format, obj).Ok?
    ensures var c := V1.FromUnstructured(format, obj).value; c.kind == RESOURCE_KIND && c.apiVersion == V1.VERSION
  {
    V1.AcceptsIffWellShaped(format, obj);
  }

  /** On the raw object the way up and down is the identity if and only if the object holds nothing
      but what a resource carries, and its timeout is canonical: everything else is dropped. */
  lemma AlphaRoundTripExactIff(format: Format, obj: Fields)
    requires format.Coherent() && UpgradeObject(format, obj).Ok?
    ensures DowngradeObject(format, UpgradeObject(format, obj).value) == Ok(obj)
            <==> Alpha.OnlyCarried(obj) && CanonicalTimeout(format, obj)
  {
    var c := Alpha.FromUnstructured(obj).value;
    AlphaRoundTrip(format, obj);
    AlphaReadIsTyped(obj);
    Alpha.WritingOfIff(Canonized(format, c), obj);
  }

  predicate CanonicalTimeout(format: Format, obj: Fields)
    requires Alpha.FromUnstructured(obj).Ok?
  {
    var timeout := Alpha.FromUnstructured(obj).value.spec.timeout;
    timeout == Canonical(format, timeout)
  }

  /** The same for the way down and up. */
  lemma V1RoundTripExactIff(format: Format, obj: Fields)
    requires format.Coherent() && DowngradeObject(format, obj).Ok?
    ensures UpgradeObject(format, DowngradeObject(format, obj).value) == Ok(obj)
            <==> V1.OnlyCarried(format, obj)
                 && Survives(V1.FromUnstructured(format, obj).value.spec.scalingMode)
  {
    var c := V1.FromUnstructured(format, obj).value;
    V1RoundTrip(format, obj);
    V1ReadIsTyped(format, obj);
    V1.WritingOfIff(format, Collapse(c), obj);
  }

  // ---- Batches ----

  /** All objects converted in order, or the error of the first one that fails. */
  ghost predicate Converted(objects: seq<Fields>, f: Fields -> Result<Fields, seq<string>>,
                            r: Result<seq<Fields>, seq<string>>)
  {
    match r
    case Ok(res) => |res| == |objects| && forall i :: 0 <= i < |objects| ==> f(objects[i]) == Ok(res[i])
    case Err(e) => exists k :: && 0 <= k < |objects| && f(objects[k]) == Err(e)
                               && forall i :: 0 <= i < k ==> f(objects[i]).Ok?
  }

  lemma ConvertedGrows(objects: seq<Fields>, k: nat, f: Fields -> Result<Fields, seq<string>>,
                       res: seq<Fields>, v: Fields)
    requires k < |objects| && Converted(objects[..k], f, Ok(res)) && f(objects[k]) == Ok(v)
    ensures Converted(objects[..k + 1], f, Ok(res + [v]))
  {
    forall i | 0 <= i < k + 1 ensures f(objects[..k + 1][i]) == Ok((res + [v])[i]) {
      if i < k { assert f(objects[..k][i]) == Ok(res[i]); }
    }
  }

  lemma ConvertedFails(objects: seq<Fields>, k: nat, f: Fields -> Result<Fields, seq<string>>,
                       res: seq<Fields>, e: seq<string>)
    requires k < |objects| && Converted(objects[..k], f, Ok(res)) && f(objects[k]) == Err(e)
    ensures Converted(objects, f, Err(e))
  {
    forall i | 0 <= i < k ensures f(objects[i]).Ok? { assert f(objects[..k][i]) == Ok(res[i]); }
  }

  /** The body of the first loop; ToUnstructured has no error to pass on. */
  method UpgradeOne(format: Format, obj: Fields) returns (r: Result<Fields, seq<string>>)
    ensures r == UpgradeObject(format, obj)
  {
    match Alpha.FromUnstructured(obj)
    case Err(e) => r := Err(e);
    case Ok(c) =>
      var timeout := match format.parse(c.spec.timeout) case Some(d) => d case None => TEN_MINUTES;
      var scalingMode := RANDOM_SCALE;
      if c.spec.podMode {
        scalingMode := KILL_POD;
      }
      var spec := V1.Spec(c.spec.enabled, c.spec.minReplicas, c.spec.maxReplicas, scalingMode,
                          c.spec.deployment, timeout);
      var uns := V1.ToUnstructured(format, V1.Cmc(c.kind, V1.VERSION, c.meta, spec));
      r := Ok(uns.value);
  }

  method ConvertFromV1Alpha1ToV1(format: Format, objects: seq<Fields>) returns (r: Result<seq<Fields>, seq<string>>)
    ensures Converted(objects, o => UpgradeObject(format, o), r)
  {
    ghost var f := (o: Fields) => UpgradeObject(format, o);
    var res: seq<Fields> := [];
    for k := 0 to |objects|
      invariant Converted(objects[..k], f, Ok(res))
    {
      var uns := UpgradeOne(format, objects[k]);
      assert f(objects[k]) == uns;
      if uns.Err? {
        ConvertedFails(objects, k, f, res, uns.error);
        return Err(uns.error);
      }
      ConvertedGrows(objects, k, f, res, uns.value);
      res := res + [uns.value];
    }
    assert objects[..|objects|] == objects;
    r := Ok(res);
  }

  /** The body of the second loop. */
  method DowngradeOne(format: Format, obj: Fields) returns (r: Result<Fields, seq<string>>)
    ensures r == DowngradeObject(format, obj)
  {
    match V1.FromUnstructured(format, obj)
    case Err(e) => r := Err(e);
    case Ok(c) =>
      var spec := Alpha.Spec(c.spec.deployment, format.show(c.spec.timeout), c.spec.minReplicas,
                             c.spec.maxReplicas, c.spec.enabled, c.spec.scalingMode == KILL_POD);
      var uns := Alpha.ToUnstructured(Alpha.Cmc(c.kind, Alpha.VERSION, c.meta, spec));
      r := Ok(uns.value);
  }

  method ConvertFromV1ToV1Alpha1(format: Format, objects: seq<Fields>) returns (r: Result<seq<Fields>, seq<string>>)
    ensures Converted(objects, o => DowngradeObject(format, o), r)
  {
    ghost var f := (o: Fields) => DowngradeObject(format, o);
    var res: seq<Fields> := [];
    for k := 0 to |objects|
      invariant Converted(objects[..k], f, Ok(res))
    {
      var uns := DowngradeOne(format, objects[k]);
      assert f(objects[k]) == uns;
      if uns.Err? {
        ConvertedFails(objects, k, f, res, uns.error);
        return Err(uns.error);
      }
      ConvertedGrows(objects, k, f, res, uns.value);
      res := res + [uns.value];
    }
    assert objects[..|objects|] == objects;
    r := Ok(res);
  }

  /** A batch that goes up can come down again: nothing is lost on the way but the spelling of
      the timeouts, position by position. */
  lemma BatchRoundTrip(format: Format, objects: seq<Fields>, up: seq<Fields>, down: Result<seq<Fields>, seq<string>>)
    requires format.Coherent()
    requires Converted(objects, o => UpgradeObject(format, o), Ok(up))
    requires Converted(up, o => DowngradeObject(format, o), down)
    ensures down.Ok? && |down.value| == |objects|
    ensures forall i :: 0 <= i < |objects| ==>
              var c := Alpha.FromUnstructured(objects[i]);
              c.Ok? && Alpha.FromUnstructured(down.value[i]) ==
                       Ok(Canonized(format, c.value))
  {
    forall i | 0 <= i < |objects|
      ensures UpgradeObject(format, objects[i]) == Ok(up[i]) && DowngradeObject(format, up[i]).Ok?
    {
      AlphaRoundTrip(format, objects[i]);
    }
    forall i | 0 <= i < |objects|
      ensures var c := Alpha.FromUnstructured(objects[i]);
              c.Ok? && Alpha.FromUnstructured(down.value[i]) ==
                       Ok(Canonized(format, c.value))
    {
      AlphaRoundTrip(format, objects[i]);
    }
  }

  /** A batch that goes down can come up again, and every resource is what it was if and only if
      none of them uses a scaling mode that v1alpha1 does not have. */
  lemma V1BatchRoundTrip(format: Format, objects: seq<Fields>, down: seq<Fields>, up: Result<seq<Fields>, seq<string>>)
    requires format.Coherent()
    requires Converted(objects, o => DowngradeObject(format, o), Ok(down))
    requires Converted(down, o => UpgradeObject(format, o), up)
    ensures up.Ok? && |up.value| == |objects|
    ensures forall i :: 0 <= i < |objects| ==> V1.FromUnstructured(format, objects[i]).Ok?
    ensures (forall i :: 0 <= i < |objects| ==>
               V1.FromUnstructured(format, up.value[i]) == V1.FromUnstructured(format, objects[i]))
            <==> (forall i :: 0 <= i < |objects| ==>
                    Survives(V1.FromUnstructured(format, objects[i]).value.spec.scalingMode))
  {
    forall i | 0 <= i < |objects|
      ensures DowngradeObject(format, objects[i]) == Ok(down[i]) && UpgradeObject(format, down[i]).Ok?
    {
      V1RoundTrip(format, objects[i]);
    }
    forall i | 0 <= i < |objects|
      ensures V1.FromUnstructured(format, objects[i]).Ok?
      ensures V1.FromUnstructured(format, up.value[i]) == V1.FromUnstructured(format, objects[i])
              <==> Survives(V1.FromUnstructured(format, objects[i]).value.spec.scalingMode)
    {
      V1RoundTrip(format, objects[i]);
    }
  }

  /** A whole batch comes back as the raw objects it was if and only if each of them does. */
  lemma BatchRoundTripExactIff(format: Format, objects: seq<Fields>, up: seq<Fields>, down: seq<Fields>)
    requires format.Coherent()
    requires Converted(objects, o => UpgradeObject(format, o), Ok(up))
    requires Converted(up, o => DowngradeObject(format, o), Ok(down))
    ensures forall i :: 0 <= i < |objects| ==> Alpha.FromUnstructured(objects[i]).Ok?
    ensures down == objects <==>
            forall i :: 0 <= i < |objects| ==> Alpha.OnlyCarried(objects[i]) && CanonicalTimeout(format, objects[i])
  {
    forall i | 0 <= i < |objects|
      ensures Alpha.FromUnstructured(objects[i]).Ok?
      ensures down[i] == objects[i] <==> Alpha.OnlyCarried(objects[i]) && CanonicalTimeout(format, objects[i])
    {
      assert UpgradeObject(format, objects[i]) == Ok(up[i]) && DowngradeObject(format, up[i]) == Ok(down[i]);
      AlphaRoundTripExactIff(format, objects[i]);
    }
  }

  lemma V1BatchRoundTripExactIff(format: Format, objects: seq<Fields>, down: seq<Fields>, up: seq<Fields>)
    requires format.Coherent()
    requires Converted(objects, o => DowngradeObject(format, o), Ok(down))
    requires Converted(down, o => UpgradeObject(format, o), Ok(up))
    ensures forall i :: 0 <= i < |objects| ==> V1.FromUnstructured(format, objects[i]).Ok?
    ensures up == objects <==>
            forall i :: 0 <= i < |objects| ==>
              && V1.OnlyCarried(format, objects[i])
              && Survives(V1.FromUnstructured(format, objects[i]).value.spec.scalingMode)
  {
    forall i | 0 <= i < |objects|
      ensures V1.FromUnstructured(format, objects[i]).Ok?
      ensures up[i] == objects[i] <==>
              && V1.OnlyCarried(format, objects[i])
              && Survives(V1.FromUnstructured(format, objects[i]).value.spec.scalingMode)
    {
      assert DowngradeObject(format, objects[i]) == Ok(down[i]) && UpgradeObject(format, down[i]) == Ok(up[i]);
      V1RoundTripExactIff(format, objects[i]);
    }
  }
}
