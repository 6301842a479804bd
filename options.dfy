/** The settings page of the browser extension (extension/options.js): the
    validation applied before saving, the defaults, and how stored values
    fill the form.  Storage and the page elements are parameters. */
module ExtensionOptions {
  import opened Js

  /** The settings as saved: the two numbers are what `parseInt` gave. */
  datatype Settings = Settings(apiBaseUrl: string, learningModeInterval: JsInt, maxContentLength: JsInt)

  /** The three input fields, as the text they hold. */
  datatype Form = Form(apiBaseUrl: string, learningModeInterval: string, maxContentLength: string)

  function ReadForm(form: Form): (s: Settings)
    ensures s.apiBaseUrl == form.apiBaseUrl
    ensures s.learningModeInterval == ParseInt(form.learningModeInterval)
    ensures s.maxContentLength == ParseInt(form.maxContentLength)
  {
    Settings(form.apiBaseUrl, ParseInt(form.learningModeInterval), ParseInt(form.maxContentLength))
  }

  const UrlRequired := "API Base URL is required"
  const IntervalRange := "Learning Mode Interval must be between 5 and 300 seconds"
  const LengthRange := "Max Content Length must be between 1000 and 20000 characters"

  /** The first rule a settings value breaks, checked in order: the URL must
      be non-empty, the interval must not be below 5 or above 300, the length
      not below 1000 or above 20000. */
  function Validate(s: Settings): (error: Option<string>)
    ensures error == Some(UrlRequired) <==> s.apiBaseUrl == ""
    ensures error == Some(IntervalRange) <==>
      s.apiBaseUrl != "" && (Lt(s.learningModeInterval, 5) || Gt(s.learningModeInterval, 300))
    ensures error == Some(LengthRange) <==>
      s.apiBaseUrl != "" && !Lt(s.learningModeInterval, 5) && !Gt(s.learningModeInterval, 300)
      && (Lt(s.maxContentLength, 1000) || Gt(s.maxContentLength, 20000))
    ensures error.None? || error.value in {UrlRequired, IntervalRange, LengthRange}
  {
    if s.apiBaseUrl == "" then Some(UrlRequired)
    else if Lt(s.learningModeInterval, 5) || Gt(s.learningModeInterval, 300) then Some(IntervalRange)
    else if Lt(s.maxContentLength, 1000) || Gt(s.maxContentLength, 20000) then Some(LengthRange)
    else None
  }

  /** Accepted numbers are in range; a value that is not a number is never
      rejected, because every comparison with NaN is false. */
  lemma ValidatedRanges(s: Settings)
    requires Validate(s).None?
    ensures s.apiBaseUrl != ""
    ensures s.learningModeInterval.Int? ==> 5 <= s.learningModeInterval.value <= 300
    ensures s.maxContentLength.Int? ==> 1000 <= s.maxContentLength.value <= 20000
  {
  }

  lemma NotANumberAccepted(url: string)
    requires url != ""
    ensures Validate(Settings(url, NaN, NaN)).None?
  {
  }

  lemma ParseEmpty()
    ensures ParseInt("") == NaN
  {
    assert TrimStart("") == "";
    assert LeadingDigits("") == "";
  }

  /** An empty number field reads as NaN and so passes validation. */
  lemma EmptyFieldsAccepted(url: string)
    requires url != ""
    ensures ReadForm(Form(url, "", "")) == Settings(url, NaN, NaN)
    ensures Validate(ReadForm(Form(url, "", ""))).None?
  {
    ParseEmpty();
  }

  const DefaultUrl := "http://localhost:3000"
  const Defaults := Settings(DefaultUrl, Int(10), Int(5000))

  lemma DefaultsValid()
    ensures Validate(Defaults).None?
  {
  }

  /** The message shown under the form, and whether it reports an error. */
  datatype Status = Status(message: string, isError: bool)

  /** `saveSettings()`: the settings written to storage, if any, and the
      status shown; `storageThrows` stands for a failing storage write. */
  function Save(form: Form, storageThrows: bool): (r: (Option<Settings>, Status))
    ensures r.0.Some? <==> Validate(ReadForm(form)).None? && !storageThrows
    ensures r.0.Some? ==> r.0.value == ReadForm(form) && r.1 == Status("Settings saved successfully!", false)
    ensures Validate(ReadForm(form)).Some? ==> r.1 == Status(Validate(ReadForm(form)).value, true)
    ensures r.1.isError <==> r.0.None?
  {
    var s := ReadForm(form);
    match Validate(s)
    case Some(message) => (None, Status(message, true))
    case None =>
      if storageThrows then (None, Status("Failed to save settings", true))
      else (Some(s), Status("Settings saved successfully!", false))
  }

  /** `resetSettings()`: the defaults are written and shown, and the status
      reports success, or the failure when storage throws. */
  function Reset(storageThrows: bool): (r: (Option<Settings>, Status))
    ensures r.0.Some? <==> !storageThrows
    ensures r.0.Some? ==> r.0.value == Defaults && Validate(r.0.value).None?
    ensures r.1.isError <==> storageThrows
    ensures r.1.message == if storageThrows then "Failed to reset settings" else "Settings reset to defaults"
  {
    if storageThrows then (None, Status("Failed to reset settings", true))
    else (Some(Defaults), Status("Settings reset to defaults", false))
  }

  /** What storage holds for a number: nothing, or the value saved. */
  function NumberOr(stored: Option<JsInt>, fallback: int): (n: int)
    ensures stored.Some? && stored.value.Int? && stored.value.value != 0 ==> n == stored.value.value
    ensures stored.None? || stored.value == NaN || stored.value == Int(0) ==> n == fallback
  {
    if stored.Some? && stored.value.Int? && stored.value.value != 0 then stored.value.value else fallback
  }

  /** `loadSettings()`: each field shows its stored value, or its default when
      the stored value is missing or falsy. */
  function Load(apiBaseUrl: Option<string>, interval: Option<JsInt>, maxLength: Option<JsInt>): (s: Settings)
    ensures s.apiBaseUrl == OrElse(apiBaseUrl, DefaultUrl)
    ensures s.learningModeInterval == Int(NumberOr(interval, 10))
    ensures s.maxContentLength == Int(NumberOr(maxLength, 5000))
  {
    Settings(OrElse(apiBaseUrl, DefaultUrl), Int(NumberOr(interval, 10)), Int(NumberOr(maxLength, 5000)))
  }

  /** Loading from empty storage shows the defaults; loading what a save
      stored shows it again, except that NaN numbers come back as defaults. */
  lemma LoadAfterSave(form: Form)
    requires Save(form, false).0.Some?
    ensures Load(None, None, None) == Defaults
    ensures var s := Save(form, false).0.value;
      Load(Some(s.apiBaseUrl), Some(s.learningModeInterval), Some(s.maxContentLength))
        == Settings(s.apiBaseUrl,
            if s.learningModeInterval.Int? then s.learningModeInterval else Int(10),
            if s.maxContentLength.Int? then s.maxContentLength else Int(5000))
  {
    var s := Save(form, false).0.value;
    assert Validate(s).None?;
    ValidatedRanges(s);
  }
}
