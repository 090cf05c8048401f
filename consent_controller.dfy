/**
 * The `AConsent` custom element: the show/hide decision on connection, the
 * seeding of the form, the change-event handler, the submit protocol and the
 * property setters, over the flags of ConsentState and the store of
 * ConsentStore.
 */
module ConsentController {
  import opened Wrappers
  import opened Coercion
  import opened ConsentState
  import opened ConsentStore

  // ---- Events and errors.

  /** The element an event was dispatched on: its id, its `type` and its `checked` state. */
  datatype Target = Target(id: string, kind: string, checked: bool)

  /** The argument of a handler: something that is not an `Event`, or an event and whether it is trusted. */
  datatype EventArg = NotAnEvent | Event(trusted: bool, target: Target)

  /** What a handler throws: `TypeError`, or the `SecurityError` DOMException. */
  datatype InputError = TypeError | SecurityError

  /** The removal effect chosen after a submit. */
  datatype Removal = Fade | Explode

  /** Where the element sits: outside any dialog, in a dialog of the main document, or in a dialog inside a shadow root. */
  datatype Dialog = NoDialog | DocumentDialog | ShadowDialog(hostIsEdit: bool)

  /** One call of the gtag function. */
  datatype ReportCall = ReportCall(command: string, action: string, state: map<string, string>)

  /** The observed attributes. */
  datatype Attribute =
    | AnalyticsAttr | AdTrackingAttr | AdPersonalizationAttr | DenyAllAttr
    | EffectAttr | ExpireAttr | ForceAttr | FunctionalAttr | GrantAllAttr

  /** `observedAttributes` with the property each one is forwarded to after kebab-to-camel conversion. */
  function AttributeOf(name: string): (a: Option<Attribute>)
    ensures a.Some? <==> name in {"analytics", "ad-tracking", "ad-personalization", "deny-all",
                                  "effect", "expire", "force", "functional", "grant-all"}
  {
    match name
    case "analytics" => Some(AnalyticsAttr)
    case "ad-tracking" => Some(AdTrackingAttr)
    case "ad-personalization" => Some(AdPersonalizationAttr)
    case "deny-all" => Some(DenyAllAttr)
    case "effect" => Some(EffectAttr)
    case "expire" => Some(ExpireAttr)
    case "force" => Some(ForceAttr)
    case "functional" => Some(FunctionalAttr)
    case "grant-all" => Some(GrantAllAttr)
    case _ => None
  }

  /** The effect of a flag attribute on the flags and the form; the other three leave them alone. */
  function ApplyAttribute(w: Widget, a: Attribute, v: Value): (r: Widget)
    ensures Consistent(w.flags) ==> Consistent(r.flags)
    ensures a.FunctionalAttr? || w.flags.functional != Required || r.flags.functional == Required
  {
    match a
    case AnalyticsAttr => SetAnalytics(w, v)
    case AdTrackingAttr => SetAdTracking(w, v)
    case AdPersonalizationAttr => SetAdPersonalization(w, v)
    case DenyAllAttr => SetDenyAll(w, v)
    case FunctionalAttr => SetFunctional(w, v)
    case GrantAllAttr => SetGrantAll(w, v)
    case EffectAttr => w
    case ExpireAttr => w
    case ForceAttr => w
  }

  // ---- Rendering and `init`.

  /** `connectedCallback` renders the form iff no live record was read or `force` is set. */
  function ShouldRender(saved: Option<Record>, force: bool): bool
  {
    saved.None? || force
  }

  /** The inputs as the template creates them: nothing checked, nothing disabled. */
  function Template(): Controls
  {
    var blank := Input(false, false);
    Controls(blank, blank, blank, blank, blank, blank)
  }

  /**
   * `init`'s writes to the form: the four checkboxes come from the saved
   * record when there is one, otherwise from the flags; a Required
   * `functional` disables its checkbox. The flags are never written.
   */
  function InitFrom(c: Controls, saved: Option<Record>, f: Flags): (r: Controls)
    ensures r.grantAll == c.grantAll && r.denyAll == c.denyAll
    ensures saved.None? ==> Mirrors(r, f)
    ensures saved.Some? ==>
      && r.analytics.checked == Granted(saved.value.fields, AnalyticsKey)
      && r.adTracking.checked == Granted(saved.value.fields, AdStorageKey)
      && r.adPersonalization.checked == Granted(saved.value.fields, AdPersonalizationKey)
      && r.functionality.checked == Granted(saved.value.fields, FunctionalityKey)
    ensures r.functionality.disabled == (c.functionality.disabled || f.functional == Required)
    ensures r.analytics.disabled == c.analytics.disabled && r.adTracking.disabled == c.adTracking.disabled
    ensures r.adPersonalization.disabled == c.adPersonalization.disabled
  {
    var (a, t, p, fn) :=
      if saved.Some? then
        (Granted(saved.value.fields, AnalyticsKey), Granted(saved.value.fields, AdStorageKey),
         Granted(saved.value.fields, AdPersonalizationKey), Granted(saved.value.fields, FunctionalityKey))
      else
        (f.analytics, f.adTracking, f.adPersonalization, f.functional == FTrue || f.functional == Required);
    c.(analytics := c.analytics.(checked := a),
       adTracking := c.adTracking.(checked := t),
       adPersonalization := c.adPersonalization.(checked := p),
       functionality := Input(fn, c.functionality.disabled || f.functional == Required))
  }

  // ---- `processInput`.

  /** A trusted change on a non-radio input unchecks both radio inputs. */
  function ClearRadios(c: Controls): Controls
  {
    c.(grantAll := c.grantAll.(checked := false), denyAll := c.denyAll.(checked := false))
  }

  /** The ids of the two radio inputs and the four checkboxes of the form. */
  const InputIds: set<string> :=
    {"consent-all", "deny-all", "analytics-storage", "ad-storage", "ad-personalization", "functionality-storage"}

  /** The `switch (event.target.id)` of `processInput`, calling the public setters. */
  function Dispatch(w: Widget, t: Target): (r: Widget)
    ensures Consistent(w.flags) ==> Consistent(r.flags)
    ensures w.flags.functional == Required ==> r.flags.functional == Required
    ensures r.flags.grantAll == w.flags.grantAll && r.flags.denyAll == w.flags.denyAll
    ensures r.controls.Some? == w.controls.Some?
    ensures r.controls.Some? ==>
      r.controls.value.grantAll == w.controls.value.grantAll && r.controls.value.denyAll == w.controls.value.denyAll
    ensures t.id == "consent-all" && t.checked ==>
      && r.flags.analytics && r.flags.adTracking && r.flags.adPersonalization && r.flags.userData
      && r.flags.functional != FFalse
      && (r.flags.functional == Required <==> w.flags.functional == Required)
      && (w.flags.functional != Required ==> r.flags.security)
    ensures t.id == "deny-all" && t.checked ==>
      && !r.flags.analytics && !r.flags.adTracking && !r.flags.adPersonalization && !r.flags.userData
      && (w.flags.functional == Required ==> r.flags.functional == Required)
      && (w.flags.functional != Required ==> r.flags.functional == FFalse && !r.flags.security)
    ensures t.id == "analytics-storage" ==> r.flags == w.flags.(analytics := t.checked)
    ensures t.id == "ad-storage" ==>
      r.flags == w.flags.(adTracking := t.checked, userData := t.checked || (w.flags.adPersonalization && w.flags.userData))
    ensures t.id == "ad-personalization" ==>
      r.flags == w.flags.(adPersonalization := t.checked, userData := t.checked || (w.flags.adTracking && w.flags.userData))
    ensures t.id == "functionality-storage" && w.flags.functional != Required ==>
      r.flags == w.flags.(functional := if t.checked then FTrue else FFalse, security := t.checked)
    ensures t.id == "functionality-storage" && w.flags.functional == Required ==> r == w
    ensures (t.id == "consent-all" || t.id == "deny-all") && !t.checked ==> r == w
    ensures t.id !in InputIds ==> r == w
  {
    match t.id
    case "consent-all" =>
      if t.checked then
        // `this.userDataStorage = true` between these writes a public property that nothing reads
        var w1 := SetAdPersonalization(SetAdTracking(SetAnalytics(w, Bool(true)), Bool(true)), Bool(true));
        if w1.flags.functional != Required then SetFunctional(w1, Bool(true)) else w1
      else w
    case "deny-all" =>
      if t.checked then
        var w1 := SetAdPersonalization(SetAdTracking(SetAnalytics(w, Bool(false)), Bool(false)), Bool(false));
        if w1.flags.functional != Required then SetFunctional(w1, Bool(false)) else w1
      else w
    case "analytics-storage" =>
      SetAnalytics(w, Bool(t.checked))
    case "ad-storage" =>
      SetAdTracking(w, Bool(t.checked))
    case "ad-personalization" =>
      SetAdPersonalization(w, Bool(t.checked))
    case "functionality-storage" =>
      if w.flags.functional != Required then SetFunctional(w, Bool(t.checked)) else w
    case _ => w
  }

  /**
   * `processInput`: a non-Event is a TypeError, an untrusted event outside
   * debug mode a SecurityError; a trusted change on a non-radio input first
   * unchecks the radios (a TypeError when the form was never rendered).
   */
  function ProcessEvent(w: Widget, ev: EventArg, debug: bool): (r: Result<Widget, InputError>)
    ensures ev.NotAnEvent? ==> r == Failure(TypeError)
    ensures ev.Event? && !ev.trusted && !debug ==> r == Failure(SecurityError)
    ensures r.Failure? <==>
      ev.NotAnEvent? || (!ev.trusted && !debug) || (ev.trusted && ev.target.kind != "radio" && w.controls.None?)
    ensures r.Success? && Consistent(w.flags) ==> Consistent(r.value.flags)
    ensures r.Success? && w.flags.functional == Required ==> r.value.flags.functional == Required
    ensures r.Success? ==> r.value.flags.grantAll == w.flags.grantAll && r.value.flags.denyAll == w.flags.denyAll
    ensures r.Success? ==> r.value.controls.Some? == w.controls.Some?
    ensures r.Success? && ev.trusted && ev.target.kind != "radio" ==>
      !r.value.controls.value.grantAll.checked && !r.value.controls.value.denyAll.checked
  {
    if ev.NotAnEvent? then Failure(TypeError)
    else if !ev.trusted && !debug then Failure(SecurityError)
    else if ev.trusted && ev.target.kind != "radio" then
      if w.controls.None? then Failure(TypeError)
      else Success(Dispatch(w.(controls := Some(ClearRadios(w.controls.value))), ev.target))
    else Success(Dispatch(w, ev.target))
  }

  // ---- Runs of attribute changes and input events.

  /** One thing that can happen to the element: an observed attribute changes, or a change event arrives. */
  datatype Step = AttributeStep(name: string, value: Value) | InputStep(ev: EventArg)

  function StepWidget(w: Widget, s: Step, debug: bool): Widget
  {
    match s
    case AttributeStep(name, v) =>
      (match AttributeOf(name)
       case None => w
       case Some(a) => ApplyAttribute(w, a, v))
    case InputStep(ev) =>
      var r := ProcessEvent(w, ev, debug);
      if r.Success? then r.value else w
  }

  /** The widget after a run of steps; a step that throws leaves it unchanged. */
  function Run(w: Widget, steps: seq<Step>, debug: bool): Widget
    decreases |steps|
  {
    if steps == [] then w else Run(StepWidget(w, steps[0], debug), steps[1..], debug)
  }

  /** The derived flags stay correct through any run of attribute changes and events. */
  lemma {:induction false} RunKeepsConsistent(w: Widget, steps: seq<Step>, debug: bool)
    requires Consistent(w.flags)
    ensures Consistent(Run(w, steps, debug).flags)
    decreases |steps|
  {
    if steps != [] {
      RunKeepsConsistent(StepWidget(w, steps[0], debug), steps[1..], debug);
    }
  }

  /** A freshly constructed element is consistent before and after anything that happens to it. */
  lemma FreshElementStaysConsistent(steps: seq<Step>, debug: bool)
    ensures Consistent(Run(Widget(Defaults(), None), steps, debug).flags)
  {
    RunKeepsConsistent(Widget(Defaults(), None), steps, debug);
  }

  predicate NoFunctionalAttribute(steps: seq<Step>)
  {
    forall i :: 0 <= i < |steps| ==> !(steps[i].AttributeStep? && steps[i].name == "functional")
  }

  /**
   * Required is sticky: no input event (the functionality checkbox, either
   * radio) and no attribute other than `functional` itself moves it, and
   * security stays granted.
   */
  lemma {:induction false} RequiredIsSticky(w: Widget, steps: seq<Step>, debug: bool)
    requires w.flags.functional == Required && Consistent(w.flags)
    requires NoFunctionalAttribute(steps)
    ensures Run(w, steps, debug).flags.functional == Required
    ensures Run(w, steps, debug).flags.security
    decreases |steps|
  {
    if steps != [] {
      var next := StepWidget(w, steps[0], debug);
      assert next.flags.functional == Required && Consistent(next.flags);
      assert NoFunctionalAttribute(steps[1..]) by {
        forall i | 0 <= i < |steps[1..]| ensures !(steps[1..][i].AttributeStep? && steps[1..][i].name == "functional") {
          assert steps[1..][i] == steps[i + 1];
        }
      }
      RequiredIsSticky(next, steps[1..], debug);
    }
  }

  /** Unchecking one ad checkbox keeps `ad_user_data` granted while the other is still checked. */
  lemma UncheckOneAdKeepsUserData(w: Widget, trusted: bool, debug: bool, id: string)
    requires Consistent(w.flags) && w.controls.Some? && (trusted || debug)
    requires id == "ad-storage" || id == "ad-personalization"
    requires w.flags.adTracking && w.flags.adPersonalization
    ensures var r := ProcessEvent(w, Event(trusted, Target(id, "checkbox", false)), debug);
      && r.Success?
      && Granted(Choices(r.value.flags), AdUserDataKey)
      && (id == "ad-storage" ==> !r.value.flags.adTracking && r.value.flags.adPersonalization)
      && (id == "ad-personalization" ==> r.value.flags.adTracking && !r.value.flags.adPersonalization)
  {
  }

  /**
   * The scenario of checking ad tracking, then ad personalization, then
   * unchecking ad tracking: `ad_user_data` is granted after each step.
   */
  lemma AdScenario(w: Widget, trusted: bool, debug: bool)
    requires Consistent(w.flags) && w.controls.Some? && (trusted || debug)
    ensures var e1 := Event(trusted, Target("ad-storage", "checkbox", true));
      var e2 := Event(trusted, Target("ad-personalization", "checkbox", true));
      var e3 := Event(trusted, Target("ad-storage", "checkbox", false));
      var r1 := ProcessEvent(w, e1, debug);
      && r1.Success? && Granted(Choices(r1.value.flags), AdUserDataKey)
      && var r2 := ProcessEvent(r1.value, e2, debug);
      && r2.Success? && Granted(Choices(r2.value.flags), AdUserDataKey)
      && var r3 := ProcessEvent(r2.value, e3, debug);
      && r3.Success? && Granted(Choices(r3.value.flags), AdUserDataKey)
      && !r3.value.flags.adTracking && r3.value.flags.adPersonalization
  {
    var r1 := ProcessEvent(w, Event(trusted, Target("ad-storage", "checkbox", true)), debug);
    var r2 := ProcessEvent(r1.value, Event(trusted, Target("ad-personalization", "checkbox", true)), debug);
    UncheckOneAdKeepsUserData(r2.value, trusted, debug, "ad-storage");
  }

  /** Checking the deny-all radio when `functional` is not Required denies all six projection fields. */
  lemma DenyAllRadioDeniesEverything(w: Widget, trusted: bool, debug: bool)
    requires w.flags.functional != Required && (trusted || debug)
    ensures var r := ProcessEvent(w, Event(trusted, Target("deny-all", "radio", true)), debug);
      && r.Success?
      && forall k :: k in ChoiceKeys ==> k in Choices(r.value.flags) && Choices(r.value.flags)[k] == "denied"
  {
  }

  /** Checking the consent-all radio on consistent flags grants all six projection fields. */
  lemma ConsentAllRadioGrantsEverything(w: Widget, trusted: bool, debug: bool)
    requires Consistent(w.flags) && (trusted || debug)
    ensures var r := ProcessEvent(w, Event(trusted, Target("consent-all", "radio", true)), debug);
      && r.Success?
      && AllGranted(Choices(r.value.flags))
  {
    var r := ProcessEvent(w, Event(trusted, Target("consent-all", "radio", true)), debug);
    assert Consistent(r.value.flags);
    GrantedReadsChoices(r.value.flags);
  }

  /**
   * An untrusted change (accepted only in debug mode) skips the unchecking
   * of the radios: both keep their state.
   */
  lemma UntrustedChangeKeepsRadios(w: Widget, t: Target)
    requires w.controls.Some?
    ensures var r := ProcessEvent(w, Event(false, t), true);
      && r.Success?
      && r.value.controls.Some?
      && r.value.controls.value.grantAll == w.controls.value.grantAll
      && r.value.controls.value.denyAll == w.controls.value.denyAll
  {
  }

  // ---- Storage effects of the controller.

  /** What the `expire` setter does to storage: re-stamp a live record with the new number of days. */
  function RefreshExpiry(items: map<string, Stored>, days: int, now: int, full: bool): map<string, Stored>
  {
    var data := Lookup(items, StorageKey, now);
    var after := AfterLookup(items, StorageKey, now);
    if data.Some? then Put(after, StorageKey, data.value.(expiry := None), days, now, full) else after
  }

  /** The `expire` setter replaces the expiry of a live consent record by `now + days * MsPerDay`, keeping its fields. */
  lemma ExpireRefreshesRecord(items: map<string, Stored>, days: int, now: int, rec: Record)
    requires Lookup(items, StorageKey, now) == Some(rec) && HasConsentData(rec) && days >= 0
    ensures Lookup(RefreshExpiry(items, days, now, false), StorageKey, now) ==
      Some(Record(rec.fields, Some(now + days * MsPerDay)))
  {
  }

  /** A live record without consent data is refused by the write and keeps its old expiry. */
  lemma ExpireKeepsRecordWithoutConsentData(items: map<string, Stored>, days: int, now: int, rec: Record)
    requires Lookup(items, StorageKey, now) == Some(rec) && !HasConsentData(rec)
    ensures RefreshExpiry(items, days, now, false) == items
  {
  }

  /** The outcome of the `expire` setter as written: it throws, or assigns a number (`None` is NaN). */
  datatype ExpireOutcome = Threw | Assigned(days: Option<int>)

  /**
   * The `expire` setter as written: it reads the record, then calls
   * `JSON.parse` on the object already returned, outside its `try`; and it
   * goes on after reporting NaN.
   */
  function ExpireAsWritten(items: map<string, Stored>, v: Value, now: int): (r: (ExpireOutcome, map<string, Stored>))
    ensures r.1 == AfterLookup(items, StorageKey, now)
  {
    var data := Lookup(items, StorageKey, now);
    var after := AfterLookup(items, StorageKey, now);
    // JSON.parse(null) is null, but JSON.parse of an object parses "[object Object]" and throws
    if data.Some? then (Threw, after) else (Assigned(ToNumber(v)), after)
  }

  /**
   * With a live record, the setter as written always throws and leaves the
   * record's expiry as it was, where the intended refresh moves it to
   * `now + days * MsPerDay`.
   */
  lemma ExpireAsWrittenNeverRefreshes()
    ensures var now := 1000000000000;
      var rec := Record(map[AnalyticsKey := "granted"], Some(now + 100000));
      var items := map[StorageKey := Json(rec)];
      && ExpireAsWritten(items, Num(180), now) == (Threw, items)
      && Lookup(RefreshExpiry(items, 180, now, false), StorageKey, now) ==
           Some(Record(rec.fields, Some(now + 180 * MsPerDay)))
      && now + 100000 != now + 180 * MsPerDay
  {
  }

  /** Whenever a live record is stored, the setter as written throws and leaves storage exactly as it was. */
  lemma ExpireAsWrittenThrowsOnLiveRecord(items: map<string, Stored>, v: Value, now: int)
    requires Lookup(items, StorageKey, now).Some?
    ensures ExpireAsWritten(items, v, now) == (Threw, items)
  {
  }

  /** With no record, the setter as written stores NaN as the number of days. */
  lemma ExpireAsWrittenAcceptsNaN(now: int)
    ensures ExpireAsWritten(map[], Str("abc"), now) == (Assigned(None), map[])
  {
    ToNumberExamples();
  }

  /**
   * A NaN number of days is stored by `JSON.stringify` as a `null` expiry,
   * which the next read compares as 0 (`Some(0)` here): at any positive time
   * the record is expired, removed and read as null.
   */
  lemma NullExpiryIsForgotten(items: map<string, Stored>, rec: Record, now: int)
    requires StorageKey in items && items[StorageKey] == Json(rec) && rec.expiry == Some(0) && now > 0
    ensures Lookup(items, StorageKey, now) == None
    ensures StorageKey !in AfterLookup(items, StorageKey, now)
  {
  }

  /** The render decision against storage: the form appears iff forced or no live record is stored. */
  lemma RenderIff(items: map<string, Stored>, now: int, force: bool)
    ensures ShouldRender(Lookup(items, StorageKey, now), force) <==>
      force || !(StorageKey in items && items[StorageKey].Json? && !Expired(items[StorageKey].rec, now))
  {
  }

  /**
   * After a successful submit, reconnecting at any time up to the expiry
   * does not render unless forced, and the record read is the submitted
   * choices; after `resetConsent` the form renders again.
   */
  lemma SubmitThenReconnect(items: map<string, Stored>, f: Flags, days: int, now: int, later: int, force: bool)
    requires days >= 0 && later <= now + days * MsPerDay
    ensures var stored := Put(items, StorageKey, Record(Choices(f), None), days, now, false);
      && Lookup(stored, StorageKey, later) == Some(Record(Choices(f), Some(now + days * MsPerDay)))
      && ShouldRender(Lookup(stored, StorageKey, later), force) == force
      && ShouldRender(Lookup(stored - {StorageKey}, StorageKey, later), force)
  {
    assert HasConsentData(Record(Choices(f), None));
    SetThenGet(items, StorageKey, Choices(f), days, now, later);
  }

  /**
   * A forced redisplay shows the saved record in the checkboxes but leaves
   * the flags at their defaults, so a submit without changes reports the
   * defaults rather than what the form showed.
   */
  lemma ForcedRedisplayShowsRecordNotFlags()
    ensures var saved := Record(map[AnalyticsKey := "granted"], None);
      var c := InitFrom(Template(), Some(saved), Defaults());
      && c.analytics.checked
      && Choices(Defaults())[AnalyticsKey] == "denied"
  {
  }

  /** The `choices()` projection satisfies the consent-data check of the write. */
  lemma ChoicesAreConsentData(f: Flags)
    ensures HasConsentData(Record(Choices(f), None))
  {
  }

  // ---- The element.

  /** The gtag function: `throws` models a missing or failing gtag; `calls` records every call that succeeded. */
  class Reporter {
    const throws: bool
    var calls: seq<ReportCall>

    constructor (throws: bool)
      ensures this.throws == throws && calls == []
    {
      this.throws := throws;
      calls := [];
    }
  }

  /** The element's settings that the flag setters leave alone. */
  datatype Config = Config(effect: Value, expire: int, force: bool, saved: Option<Record>, hidden: bool)

  class AConsent {
    /** `#debug`: when set, untrusted events are accepted. */
    const debug: bool

    var analytics: bool
    var adTracking: bool
    var adPersonalization: bool
    var functional: Functional
    var grantAll: bool
    var denyAll: bool
    var userDataStorage: bool
    var securityStorage: bool

    /** `#effect`: any value; only the exact string "fade" fades. */
    var effect: Value
    /** `#expire`: days to keep the record. */
    var expire: int
    var force: bool

    /** The form inputs; `None` until the template is rendered. */
    var controls: Option<Controls>
    var savedConsent: Option<Record>
    /** `style.display = 'none'`. */
    var hidden: bool

    function FlagState(): Flags
      reads this
    {
      Flags(analytics, adTracking, adPersonalization, functional, grantAll, denyAll, userDataStorage, securityStorage)
    }

    function View(): Widget
      reads this
    {
      Widget(FlagState(), controls)
    }

    function Configuration(): Config
      reads this
    {
      Config(effect, expire, force, savedConsent, hidden)
    }

    constructor (debug: bool)
      ensures this.debug == debug
      ensures FlagState() == Defaults() && controls == None
      ensures effect == Str("fade") && expire == 365 && !force && savedConsent == None && !hidden
    {
      this.debug := debug;
      analytics, adTracking, adPersonalization := false, false, false;
      functional := Required;
      grantAll, denyAll := false, false;
      userDataStorage, securityStorage := false, true;
      effect := Str("fade");
      expire := 365;
      force := false;
      controls := None;
      savedConsent := None;
      hidden := false;
    }

    // ---- Property setters.

    method SetAnalytics(v: Value)
      modifies this
      ensures View() == ConsentState.SetAnalytics(old(View()), v)
      ensures Configuration() == old(Configuration())
    {
      if SwitchesOff(v) {
        analytics := false;
        if controls.Some? {
          controls := Some(controls.value.(analytics := controls.value.analytics.(checked := false)));
        }
      } else {
        analytics := true;
        if controls.Some? {
          controls := Some(controls.value.(analytics := controls.value.analytics.(checked := true)));
        }
      }
    }

    method SetAdTracking(v: Value)
      modifies this
      ensures View() == ConsentState.SetAdTracking(old(View()), v)
      ensures Configuration() == old(Configuration())
    {
      if SwitchesOff(v) {
        adTracking := false;
        if !adPersonalization {
          userDataStorage := false;
        }
        if controls.Some? {
          controls := Some(controls.value.(adTracking := controls.value.adTracking.(checked := false)));
        }
      } else {
        adTracking := true;
        userDataStorage := true;
        if controls.Some? {
          controls := Some(controls.value.(adTracking := controls.value.adTracking.(checked := true)));
        }
      }
    }

    method SetAdPersonalization(v: Value)
      modifies this
      ensures View() == ConsentState.SetAdPersonalization(old(View()), v)
      ensures Configuration() == old(Configuration())
    {
      if SwitchesOff(v) {
        adPersonalization := false;
        if !adTracking {
          userDataStorage := false;
        }
        if controls.Some? {
          controls := Some(controls.value.(adPersonalization := controls.value.adPersonalization.(checked := false)));
        }
      } else {
        adPersonalization := true;
        userDataStorage := true;
        if controls.Some? {
          controls := Some(controls.value.(adPersonalization := controls.value.adPersonalization.(checked := true)));
        }
      }
    }

    method SetFunctional(v: Value)
      modifies this
      ensures View() == ConsentState.SetFunctional(old(View()), v)
      ensures Configuration() == old(Configuration())
    {
      var u := Lowered(v);
      if u == Bool(false) || u == Str("false") {
        functional := FFalse;
        securityStorage := false;
        if controls.Some? {
          controls := Some(controls.value.(functionality := controls.value.functionality.(checked := false)));
        }
      } else if u == Str("required") {
        functional := Required;
        securityStorage := true;
        if controls.Some? {
          controls := Some(controls.value.(functionality := Input(true, true)));
        }
      } else {
        functional := FTrue;
        securityStorage := true;
        if controls.Some? {
          controls := Some(controls.value.(functionality := controls.value.functionality.(checked := true)));
        }
      }
    }

    method SetGrantAll(v: Value)
      modifies this`analytics, this`adTracking, this`adPersonalization, this`functional,
        this`grantAll, this`denyAll, this`userDataStorage, this`securityStorage
      ensures View() == ConsentState.SetGrantAll(old(View()), v)
      ensures Configuration() == old(Configuration())
    {
      if SwitchesOff(v) {
        grantAll := false;
        assert FlagState() == old(FlagState()).(grantAll := false);
      } else {
        var fn := if functional != Required then FTrue else functional;
        analytics, adTracking, adPersonalization, functional := true, true, true, fn;
        grantAll, denyAll, userDataStorage, securityStorage := true, false, true, true;
        assert FlagState() == Flags(true, true, true, fn, true, false, true, true);
      }
    }

    method SetDenyAll(v: Value)
      modifies this`analytics, this`adTracking, this`adPersonalization, this`functional,
        this`grantAll, this`denyAll, this`userDataStorage, this`securityStorage
      ensures View() == ConsentState.SetDenyAll(old(View()), v)
      ensures Configuration() == old(Configuration())
    {
      if SwitchesOff(v) {
        denyAll := false;
        assert FlagState() == old(FlagState()).(denyAll := false);
      } else {
        var fn := if functional != Required then FFalse else functional;
        analytics, adTracking, adPersonalization, functional := false, false, false, fn;
        grantAll, denyAll, userDataStorage, securityStorage := false, true, false, fn == Required;
        assert FlagState() == Flags(false, false, false, fn, false, true, false, fn == Required);
      }
    }

    /** The `force` setter: only `false` and the exact string "false" clear it. */
    method SetForce(v: Value)
      modifies this`force
      ensures force == !ForceSwitchesOff(v)
    {
      if v == Bool(false) || v == Str("false") {
        force := false;
      } else {
        force := true;
      }
    }

    /** The `effect` setter stores its value as given. */
    method SetEffect(v: Value)
      modifies this`effect
      ensures effect == v
    {
      effect := v;
    }

    /**
     * The `expire` setter as intended: a NaN value changes nothing; a number
     * re-stamps a live record with the new number of days and becomes `#expire`.
     */
    method SetExpire(v: Value, store: Store, now: int)
      modifies this`expire, store
      ensures ToNumber(v).None? ==> expire == old(expire) && store.items == old(store.items)
      ensures ToNumber(v).Some? ==>
        && expire == ToNumber(v).value
        && store.items == RefreshExpiry(old(store.items), ToNumber(v).value, now, store.full)
    {
      var n := ToNumber(v);
      if n.None? {
        // logged: "Could not set expire on localStorage"
        return;
      }
      var data := store.LocalDataGet(StorageKey, now);
      if data.Some? {
        store.LocalDataSet(StorageKey, data.value.(expiry := None), n.value, now);
      }
      expire := n.value;
    }

    /** `attributeChangedCallback`: forward an observed attribute to its setter. */
    method AttributeChanged(name: string, v: Value, store: Store, now: int)
      modifies this, store
      ensures AttributeOf(name).None? ==> View() == old(View()) && Configuration() == old(Configuration()) && store.items == old(store.items)
      ensures AttributeOf(name).Some? ==> View() == ApplyAttribute(old(View()), AttributeOf(name).value, v)
      ensures AttributeOf(name) != Some(ExpireAttr) ==> store.items == old(store.items)
      ensures AttributeOf(name).Some? && !(AttributeOf(name).value in {ForceAttr, EffectAttr, ExpireAttr}) ==>
        Configuration() == old(Configuration())
      ensures AttributeOf(name) == Some(ForceAttr) ==>
        Configuration() == old(Configuration()).(force := !ForceSwitchesOff(v))
      ensures AttributeOf(name) == Some(EffectAttr) ==> Configuration() == old(Configuration()).(effect := v)
      ensures AttributeOf(name) == Some(ExpireAttr) && ToNumber(v).Some? ==>
        && Configuration() == old(Configuration()).(expire := ToNumber(v).value)
        && store.items == RefreshExpiry(old(store.items), ToNumber(v).value, now, store.full)
      ensures AttributeOf(name) == Some(ExpireAttr) && ToNumber(v).None? ==>
        Configuration() == old(Configuration()) && store.items == old(store.items)
    {
      var a := AttributeOf(name);
      if a.None? {
        return;
      }
      match a.value {
        case AnalyticsAttr => SetAnalytics(v);
        case AdTrackingAttr => SetAdTracking(v);
        case AdPersonalizationAttr => SetAdPersonalization(v);
        case DenyAllAttr => SetDenyAll(v);
        case FunctionalAttr => SetFunctional(v);
        case GrantAllAttr => SetGrantAll(v);
        case EffectAttr => SetEffect(v);
        case ExpireAttr => SetExpire(v, store, now);
        case ForceAttr => SetForce(v);
      }
    }

    // ---- Lifecycle and handlers.

    /**
     * `init`: seed the checkboxes from the saved record or from the flags.
     * Without a rendered form the first write throws a TypeError.
     */
    method Init() returns (err: Option<InputError>)
      modifies this`controls
      ensures old(controls).None? ==> err == Some(TypeError) && controls == old(controls)
      ensures old(controls).Some? ==> err == None && controls == Some(InitFrom(old(controls).value, savedConsent, FlagState()))
    {
      if controls.None? {
        return Some(TypeError);
      }
      var c := controls.value;
      if savedConsent.Some? {
        var fields := savedConsent.value.fields;
        c := c.(analytics := c.analytics.(checked := Granted(fields, AnalyticsKey)));
        c := c.(adTracking := c.adTracking.(checked := Granted(fields, AdStorageKey)));
        c := c.(adPersonalization := c.adPersonalization.(checked := Granted(fields, AdPersonalizationKey)));
        c := c.(functionality := c.functionality.(checked := Granted(fields, FunctionalityKey)));
      } else {
        c := c.(analytics := c.analytics.(checked := analytics));
        c := c.(adTracking := c.adTracking.(checked := adTracking));
        c := c.(adPersonalization := c.adPersonalization.(checked := adPersonalization));
        c := c.(functionality := c.functionality.(checked := functional == FTrue || functional == Required));
      }
      if functional == Required {
        c := c.(functionality := c.functionality.(disabled := true));
      }
      controls := Some(c);
      return None;
    }

    /** `connectedCallback`: read the store, then render and seed the form iff no live record or `force`. */
    method ConnectedCallback(store: Store, now: int)
      modifies this, store
      ensures savedConsent == Lookup(old(store.items), StorageKey, now)
      ensures store.items == AfterLookup(old(store.items), StorageKey, now)
      ensures FlagState() == old(FlagState())
      ensures ShouldRender(savedConsent, force) ==> controls == Some(InitFrom(Template(), savedConsent, FlagState()))
      ensures !ShouldRender(savedConsent, force) ==> controls == old(controls)
      ensures effect == old(effect) && expire == old(expire) && force == old(force) && hidden == old(hidden)
    {
      savedConsent := store.LocalDataGet(StorageKey, now);
      if savedConsent.None? || force {
        controls := Some(Template());
        var err := Init();
      }
    }

    /** `processInput`: apply a change event and return the new projection. */
    method ProcessInput(ev: EventArg) returns (r: Result<map<string, string>, InputError>)
      modifies this
      ensures var spec := ProcessEvent(old(View()), ev, debug);
        && (spec.Failure? ==> r == Failure(spec.error) && View() == old(View()))
        && (spec.Success? ==> View() == spec.value && r == Success(Choices(spec.value.flags)))
      ensures Configuration() == old(Configuration())
    {
      if ev.NotAnEvent? {
        return Failure(TypeError);
      }
      if !ev.trusted && !debug {
        return Failure(SecurityError);
      }
      var elem := ev.target;
      if ev.trusted && elem.kind != "radio" {
        if controls.None? {
          // `this.grantAllInput` is undefined
          return Failure(TypeError);
        }
        controls := Some(ClearRadios(controls.value));
      }
      ghost var start := View();
      match elem.id {
        case "consent-all" =>
          if elem.checked {
            SetAnalytics(Bool(true));
            SetAdTracking(Bool(true));
            SetAdPersonalization(Bool(true));
            if functional != Required {
              SetFunctional(Bool(true));
            }
          }
        case "deny-all" =>
          if elem.checked {
            SetAnalytics(Bool(false));
            SetAdTracking(Bool(false));
            SetAdPersonalization(Bool(false));
            if functional != Required {
              SetFunctional(Bool(false));
            }
          }
        case "analytics-storage" =>
          SetAnalytics(Bool(elem.checked));
        case "ad-storage" =>
          SetAdTracking(Bool(elem.checked));
        case "ad-personalization" =>
          SetAdPersonalization(Bool(elem.checked));
        case "functionality-storage" =>
          if functional != Required {
            SetFunctional(Bool(elem.checked));
          }
        case _ =>
      }
      assert View() == Dispatch(start, elem);
      return Success(Choices(FlagState()));
    }

    /**
     * `#updateConsent`: call gtag, then write the store; a throwing gtag
     * skips the write. Inside a dialog of an `a-consent-edit` shadow root the
     * host's `hideForm` is called; a dialog in the main document has no host
     * and the lookup throws after the write. A throw hides the element and
     * yields false.
     */
    method UpdateConsent(consentState: map<string, string>, gtag: Reporter, dialog: Dialog, store: Store, now: int)
      returns (ok: bool, hideForm: bool)
      modifies this`hidden, gtag, store
      ensures ok == (!gtag.throws && !dialog.DocumentDialog?)
      ensures hidden == (old(hidden) || !ok)
      ensures gtag.calls ==
        if gtag.throws then old(gtag.calls) else old(gtag.calls) + [ReportCall("consent", "update", consentState)]
      ensures store.items ==
        if gtag.throws then old(store.items)
        else Put(old(store.items), StorageKey, Record(consentState, None), expire, now, store.full)
      ensures hideForm == (ok && dialog == ShadowDialog(true))
    {
      hideForm := false;
      if gtag.throws {
        hidden := true;
        return false, false;
      }
      gtag.calls := gtag.calls + [ReportCall("consent", "update", consentState)];
      store.LocalDataSet(StorageKey, Record(consentState, None), expire, now);
      match dialog {
        case NoDialog =>
        case DocumentDialog =>
          // `parentShadow.host` is undefined on the document
          hidden := true;
          return false, false;
        case ShadowDialog(isEdit) =>
          hideForm := isEdit;
      }
      return true, hideForm;
    }

    /** `submitChoices`: check the event, report and store `choices()`, then pick the removal effect. */
    method SubmitChoices(ev: EventArg, gtag: Reporter, dialog: Dialog, store: Store, now: int)
      returns (r: Result<Removal, InputError>, hideForm: bool)
      modifies this`hidden, gtag, store
      ensures ev.NotAnEvent? ==> r == Failure(TypeError)
      ensures ev.Event? && !ev.trusted && !debug ==> r == Failure(SecurityError)
      ensures r.Failure? ==> store.items == old(store.items) && gtag.calls == old(gtag.calls) && hidden == old(hidden)
      ensures r.Success? <==> ev.Event? && (ev.trusted || debug)
      ensures r.Success? ==> r.value == (if effect == Str("fade") then Fade else Explode)
      ensures r.Success? && !gtag.throws ==>
        && gtag.calls == old(gtag.calls) + [ReportCall("consent", "update", Choices(FlagState()))]
        && store.items == Put(old(store.items), StorageKey, Record(Choices(FlagState()), None), expire, now, store.full)
      ensures r.Success? && gtag.throws ==> store.items == old(store.items) && hidden
      ensures gtag.throws ==> gtag.calls == old(gtag.calls)
      ensures r.Success? ==> hidden == (old(hidden) || gtag.throws || dialog.DocumentDialog?)
      ensures hideForm == (r.Success? && !gtag.throws && dialog == ShadowDialog(true))
    {
      hideForm := false;
      if ev.NotAnEvent? {
        // `event.preventDefault` is not a function
        return Failure(TypeError), false;
      }
      if !ev.trusted && !debug {
        return Failure(SecurityError), false;
      }
      var ok;
      ok, hideForm := UpdateConsent(Choices(FlagState()), gtag, dialog, store, now);
      if effect == Str("fade") {
        r := Success(Fade);
      } else {
        r := Success(Explode);
      }
    }

    /** `resetConsent`: remove the record (the page reload that follows is outside the model). */
    method ResetConsent(store: Store)
      modifies store
      ensures store.items == old(store.items) - {StorageKey}
    {
      store.LocalDataRemove(StorageKey);
    }
  }
}
