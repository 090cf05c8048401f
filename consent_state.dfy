/**
 * The consent flags of the element, the checkboxes its setters keep in step,
 * the effect of each property setter, and the `choices()` projection that is
 * both the gtag `consent update` payload and the persisted record.
 */
module ConsentState {
  import opened Wrappers
  import opened Coercion

  /** `functional` is `false`, `true` or the sticky string "required". */
  datatype Functional = FFalse | FTrue | Required

  /** The private fields `#analytics` … `#securityStorage`; `userData` and `security` are derived. */
  datatype Flags = Flags(
    analytics: bool,
    adTracking: bool,
    adPersonalization: bool,
    functional: Functional,
    grantAll: bool,
    denyAll: bool,
    userData: bool,
    security: bool)

  /** One form input: its `checked` and `disabled` states. */
  datatype Input = Input(checked: bool, disabled: bool)

  /** The two radio inputs and the four checkboxes of the rendered form. */
  datatype Controls = Controls(
    grantAll: Input,
    denyAll: Input,
    analytics: Input,
    adTracking: Input,
    adPersonalization: Input,
    functionality: Input)

  /** The flags together with the form, which exists only once the template is rendered. */
  datatype Widget = Widget(flags: Flags, controls: Option<Controls>)

  /** The two derived flags agree with the flags they are derived from. */
  predicate Consistent(f: Flags)
  {
    && f.userData == (f.adTracking || f.adPersonalization)
    && f.security == (f.functional != FFalse)
  }

  /** Each consent checkbox shows its flag; a required `functional` has a disabled checkbox. */
  predicate Mirrors(c: Controls, f: Flags)
  {
    && c.analytics.checked == f.analytics
    && c.adTracking.checked == f.adTracking
    && c.adPersonalization.checked == f.adPersonalization
    && c.functionality.checked == (f.functional != FFalse)
    && (f.functional == Required ==> c.functionality.disabled)
  }

  // The six keys of the projection, as the gtag consent API names them.
  const AnalyticsKey := "analytics_storage"
  const AdStorageKey := "ad_storage"
  const AdUserDataKey := "ad_user_data"
  const AdPersonalizationKey := "ad_personalization"
  const FunctionalityKey := "functionality_storage"
  const SecurityKey := "security_storage"

  const ChoiceKeys: set<string> :=
    {AnalyticsKey, AdStorageKey, AdUserDataKey, AdPersonalizationKey, FunctionalityKey, SecurityKey}

  function Grant(b: bool): string
  {
    if b then "granted" else "denied"
  }

  /** The gtag wire format: exactly six keys, each "granted" or "denied". */
  function Choices(f: Flags): (m: map<string, string>)
    ensures m.Keys == ChoiceKeys
    ensures forall k :: k in m ==> m[k] == "granted" || m[k] == "denied"
  {
    map[
      AnalyticsKey := Grant(f.analytics),
      AdStorageKey := Grant(f.adTracking),
      AdUserDataKey := Grant(f.userData),
      AdPersonalizationKey := Grant(f.adPersonalization),
      FunctionalityKey := Grant(f.functional == FTrue || f.functional == Required),
      SecurityKey := Grant(f.security)]
  }

  /** Reading a projection back the way `init` reads a saved record: granted means checked. */
  function Granted(m: map<string, string>, key: string): bool
  {
    key in m && m[key] == "granted"
  }

  predicate AllGranted(m: map<string, string>)
  {
    forall k :: k in ChoiceKeys ==> Granted(m, k)
  }

  /** The flags of a freshly constructed element. */
  function Defaults(): (f: Flags)
    ensures Consistent(f)
    ensures f.functional == Required
    ensures Choices(f) == map[
      AnalyticsKey := "denied", AdStorageKey := "denied", AdUserDataKey := "denied",
      AdPersonalizationKey := "denied", FunctionalityKey := "granted", SecurityKey := "granted"]
  {
    Flags(false, false, false, Required, false, false, false, true)
  }

  /** Reading the projection back gives the flags it was made from (the partner of `Choices`). */
  lemma GrantedReadsChoices(f: Flags)
    ensures Granted(Choices(f), AnalyticsKey) == f.analytics
    ensures Granted(Choices(f), AdStorageKey) == f.adTracking
    ensures Granted(Choices(f), AdUserDataKey) == f.userData
    ensures Granted(Choices(f), AdPersonalizationKey) == f.adPersonalization
    ensures Granted(Choices(f), FunctionalityKey) == (f.functional != FFalse)
    ensures Granted(Choices(f), SecurityKey) == f.security
  {
  }

  /**
   * On consistent flags the projection loses only the distinction between
   * `true` and "required" and the grant-all/deny-all indicators.
   */
  lemma ChoicesDetermineConsent(f: Flags, g: Flags)
    requires Consistent(f) && Consistent(g)
    ensures Choices(f) == Choices(g) <==>
      && f.analytics == g.analytics
      && f.adTracking == g.adTracking
      && f.adPersonalization == g.adPersonalization
      && (f.functional != FFalse) == (g.functional != FFalse)
  {
    if Choices(f) == Choices(g) {
      GrantedReadsChoices(f);
      GrantedReadsChoices(g);
    }
  }

  // ---- Property setters. Each one writes private fields and, once the form
  // ---- exists, the matching checkbox.

  function CheckAnalytics(c: Option<Controls>, b: bool): Option<Controls>
  {
    if c.Some? then Some(c.value.(analytics := c.value.analytics.(checked := b))) else None
  }

  function CheckAdTracking(c: Option<Controls>, b: bool): Option<Controls>
  {
    if c.Some? then Some(c.value.(adTracking := c.value.adTracking.(checked := b))) else None
  }

  function CheckAdPersonalization(c: Option<Controls>, b: bool): Option<Controls>
  {
    if c.Some? then Some(c.value.(adPersonalization := c.value.adPersonalization.(checked := b))) else None
  }

  /** The `analytics` setter: only `analytics_storage` changes, to the coerced value. */
  function SetAnalytics(w: Widget, v: Value): (r: Widget)
    ensures r.flags.analytics == !SwitchesOff(v)
    ensures r.flags == w.flags.(analytics := r.flags.analytics)
    ensures Consistent(w.flags) ==> Consistent(r.flags)
    ensures r.controls.Some? == w.controls.Some?
    ensures r.controls.Some? ==>
      r.controls.value == w.controls.value.(analytics := Input(!SwitchesOff(v), w.controls.value.analytics.disabled))
  {
    if SwitchesOff(v) then
      Widget(w.flags.(analytics := false), CheckAnalytics(w.controls, false))
    else
      Widget(w.flags.(analytics := true), CheckAnalytics(w.controls, true))
  }

  /**
   * The `adTracking` setter. Clearing it clears `userData` only when
   * `adPersonalization` is off too, which keeps the derived flag correct.
   */
  function SetAdTracking(w: Widget, v: Value): (r: Widget)
    ensures r.flags.adTracking == !SwitchesOff(v)
    ensures r.flags == w.flags.(adTracking := r.flags.adTracking, userData := r.flags.userData)
    ensures Consistent(w.flags) ==> Consistent(r.flags)
    ensures r.controls.Some? == w.controls.Some?
    ensures r.controls.Some? ==>
      r.controls.value == w.controls.value.(adTracking := Input(!SwitchesOff(v), w.controls.value.adTracking.disabled))
  {
    if SwitchesOff(v) then
      Widget(w.flags.(adTracking := false, userData := if !w.flags.adPersonalization then false else w.flags.userData),
             CheckAdTracking(w.controls, false))
    else
      Widget(w.flags.(adTracking := true, userData := true), CheckAdTracking(w.controls, true))
  }

  /** The `adPersonalization` setter, the mirror image of `adTracking`. */
  function SetAdPersonalization(w: Widget, v: Value): (r: Widget)
    ensures r.flags.adPersonalization == !SwitchesOff(v)
    ensures r.flags == w.flags.(adPersonalization := r.flags.adPersonalization, userData := r.flags.userData)
    ensures Consistent(w.flags) ==> Consistent(r.flags)
    ensures r.controls.Some? == w.controls.Some?
    ensures r.controls.Some? ==>
      r.controls.value == w.controls.value.(adPersonalization := Input(!SwitchesOff(v), w.controls.value.adPersonalization.disabled))
  {
    if SwitchesOff(v) then
      Widget(w.flags.(adPersonalization := false, userData := if !w.flags.adTracking then false else w.flags.userData),
             CheckAdPersonalization(w.controls, false))
    else
      Widget(w.flags.(adPersonalization := true, userData := true), CheckAdPersonalization(w.controls, true))
  }

  /** How the `functional` setter reads its input: "required" (any case) is Required. */
  function FunctionalOf(v: Value): (f: Functional)
    ensures f == FFalse <==> SwitchesOff(v)
  {
    var u := Lowered(v);
    if u == Bool(false) || u == Str("false") then FFalse
    else if u == Str("required") then Required
    else FTrue
  }

  /**
   * Characterises `FunctionalOf`: Required exactly for an eight-letter string
   * spelling "required" in any case, FTrue for every other value that does
   * not switch off.
   */
  lemma FunctionalOfIff(v: Value)
    ensures FunctionalOf(v) == Required <==>
      v.Str? && |v.s| == 8 && forall i :: 0 <= i < 8 ==> LowerChar(v.s[i]) == "required"[i]
    ensures FunctionalOf(v) == FTrue <==> !SwitchesOff(v) && FunctionalOf(v) != Required
  {
    if v.Str? && |v.s| == 8 && (forall i :: 0 <= i < 8 ==> LowerChar(v.s[i]) == "required"[i]) {
      assert ToLower(v.s) == "required";
    }
  }

  /** "REQUIRED" gives Required: the comparison ignores case. */
  lemma FunctionalOfUpperCase()
    ensures FunctionalOf(Str("REQUIRED")) == Required
  {
    FunctionalOfIff(Str("REQUIRED"));
  }

  /** `true`, "yes" and null (a removed attribute) give FTrue, not Required. */
  lemma FunctionalOfOtherValues()
    ensures FunctionalOf(Bool(true)) == FTrue && FunctionalOf(Str("yes")) == FTrue && FunctionalOf(Null) == FTrue
  {
    assert ToLower("yes")[0] == 'y';
  }

  /**
   * The `functional` setter. It is not sticky: whatever the old value, the
   * new one is the coerced input. "required" also disables the checkbox; no
   * value enables it again.
   */
  function SetFunctional(w: Widget, v: Value): (r: Widget)
    ensures r.flags.functional == FunctionalOf(v)
    ensures r.flags == w.flags.(functional := r.flags.functional, security := r.flags.security)
    ensures Consistent(w.flags) ==> Consistent(r.flags)
    ensures r.controls.Some? == w.controls.Some?
    ensures r.controls.Some? ==>
      var c := r.controls.value;
      && c == w.controls.value.(functionality := c.functionality)
      && c.functionality.checked == !SwitchesOff(v)
      && c.functionality.disabled == (w.controls.value.functionality.disabled || FunctionalOf(v) == Required)
  {
    var fn := FunctionalOf(v);
    var controls :=
      if w.controls.None? then None
      else
        var c := w.controls.value;
        Some(c.(functionality := Input(fn != FFalse, c.functionality.disabled || fn == Required)));
    Widget(w.flags.(functional := fn, security := fn != FFalse), controls)
  }

  // ---- What the setters that touch a derived flag do to the projection.

  /** On consistent flags the `adTracking` setter changes only `ad_storage` and `ad_user_data`. */
  lemma AdTrackingChoices(w: Widget, v: Value)
    requires Consistent(w.flags)
    ensures Choices(SetAdTracking(w, v).flags) ==
      Choices(w.flags)[AdStorageKey := Grant(!SwitchesOff(v))]
                      [AdUserDataKey := Grant(!SwitchesOff(v) || w.flags.adPersonalization)]
  {
  }

  /** On consistent flags the `adPersonalization` setter changes only `ad_personalization` and `ad_user_data`. */
  lemma AdPersonalizationChoices(w: Widget, v: Value)
    requires Consistent(w.flags)
    ensures Choices(SetAdPersonalization(w, v).flags) ==
      Choices(w.flags)[AdPersonalizationKey := Grant(!SwitchesOff(v))]
                      [AdUserDataKey := Grant(!SwitchesOff(v) || w.flags.adTracking)]
  {
  }

  /** The `functional` setter changes only `functionality_storage` and `security_storage`, both to the coerced value. */
  lemma FunctionalChoices(w: Widget, v: Value)
    ensures Choices(SetFunctional(w, v).flags) ==
      Choices(w.flags)[FunctionalityKey := Grant(!SwitchesOff(v))]
                      [SecurityKey := Grant(!SwitchesOff(v))]
  {
  }

  /**
   * The `grantAll` setter. A non-false value grants everything and clears
   * `denyAll`, keeping a Required `functional`; `false` clears only the
   * `grantAll` indicator. The checkboxes are not touched.
   */
  function SetGrantAll(w: Widget, v: Value): (r: Widget)
    ensures r.controls == w.controls
    ensures Consistent(w.flags) || !SwitchesOff(v) ==> Consistent(r.flags)
    ensures SwitchesOff(v) ==> r.flags == w.flags.(grantAll := false)
    ensures !SwitchesOff(v) ==>
      && r.flags.grantAll && !r.flags.denyAll
      && r.flags.analytics && r.flags.adTracking && r.flags.adPersonalization
      && r.flags.userData && r.flags.security
      && (r.flags.functional == Required <==> w.flags.functional == Required)
      && r.flags.functional != FFalse
  {
    if SwitchesOff(v) then
      w.(flags := w.flags.(grantAll := false))
    else
      var fn := if w.flags.functional != Required then FTrue else w.flags.functional;
      w.(flags := Flags(true, true, true, fn, true, false, true, true))
  }

  /**
   * The `denyAll` setter. A non-false value denies the four optional flags,
   * clears `grantAll`, and turns `functional` off unless it is Required, in
   * which case functionality and security stay granted; `false` clears only
   * the `denyAll` indicator. The checkboxes are not touched.
   */
  function SetDenyAll(w: Widget, v: Value): (r: Widget)
    ensures r.controls == w.controls
    ensures Consistent(w.flags) || !SwitchesOff(v) ==> Consistent(r.flags)
    ensures SwitchesOff(v) ==> r.flags == w.flags.(denyAll := false)
    ensures !SwitchesOff(v) ==>
      && r.flags.denyAll && !r.flags.grantAll
      && !r.flags.analytics && !r.flags.adTracking && !r.flags.adPersonalization && !r.flags.userData
      && (r.flags.functional == Required <==> w.flags.functional == Required)
      && (r.flags.functional != Required ==> r.flags.functional == FFalse)
  {
    if SwitchesOff(v) then
      w.(flags := w.flags.(denyAll := false))
    else
      var fn := if w.flags.functional != Required then FFalse else w.flags.functional;
      w.(flags := Flags(false, false, false, fn, false, true, false, fn == Required))
  }

  /** After a non-false `grantAll`, every one of the six consent types reads granted. */
  lemma GrantAllGrantsEverything(w: Widget, v: Value)
    requires !SwitchesOff(v)
    ensures AllGranted(Choices(SetGrantAll(w, v).flags))
  {
  }

  /** After a non-false `denyAll`, the four optional types and `ad_user_data` are denied; functionality and security are granted exactly when `functional` was Required. */
  lemma DenyAllChoices(w: Widget, v: Value)
    requires !SwitchesOff(v)
    ensures Choices(SetDenyAll(w, v).flags) == map[
      AnalyticsKey := "denied", AdStorageKey := "denied", AdUserDataKey := "denied",
      AdPersonalizationKey := "denied",
      FunctionalityKey := Grant(w.flags.functional == Required),
      SecurityKey := Grant(w.flags.functional == Required)]
  {
  }

  /** Setting `functional` to "required" and then denying everything keeps functionality and security granted. */
  lemma RequiredSurvivesDenyAll(w: Widget, v: Value)
    requires !SwitchesOff(v)
    ensures var r := SetDenyAll(SetFunctional(w, Str("required")), v);
      && r.flags.functional == Required
      && Granted(Choices(r.flags), FunctionalityKey)
      && Granted(Choices(r.flags), SecurityKey)
  {
    LowerCaseUnchanged("required");
    assert FunctionalOf(Str("required")) == Required;
    var w1 := SetFunctional(w, Str("required"));
    assert w1.flags.functional == Required;
    var r := SetDenyAll(w1, v);
    assert r.flags.functional == Required && r.flags.security;
  }

  /**
   * ... but the `functional` setter itself may still turn a Required value
   * off, and the checkbox it disabled stays disabled though unchecked.
   */
  lemma FunctionalSetterIsNotSticky(w: Widget)
    ensures var r := SetFunctional(SetFunctional(w, Str("required")), Bool(false));
      && r.flags.functional == FFalse
      && !r.flags.security
      && (r.controls.Some? ==> !r.controls.value.functionality.checked && r.controls.value.functionality.disabled)
  {
    LowerCaseUnchanged("required");
    assert FunctionalOf(Str("required")) == Required;
  }

  /** `userData` follows `adTracking || adPersonalization` over the whole 2×2 table of setter inputs. */
  lemma UserDataTruthTable(w: Widget, t: bool, p: bool)
    requires Consistent(w.flags)
    ensures SetAdPersonalization(SetAdTracking(w, Bool(t)), Bool(p)).flags.userData == (t || p)
    ensures SetAdTracking(SetAdPersonalization(w, Bool(p)), Bool(t)).flags.userData == (t || p)
  {
  }
}
