/** The page logic of public/js/app.js: the light/dark theme, the four-step
    onboarding wizard, the icon the save button submits, and the rule that
    decides whether to poll a submitted video's status again.  The document
    is reduced to the values these handlers write (the body's class, the
    theme icon's class, the wizard's visibility, its active panel, dots and
    buttons), local storage to its two keys, and the page's own
    `trackEvent` to the list of bodies it posts. */
module App {
  import opened Base
  import Table
  import Videos
  import Icons

  const TotalSteps: int := 4

  /** `let currentUserId = 1`. */
  const CurrentUserId: nat := 1

  /** A body the page's `trackEvent` posts to the analytics endpoint. */
  datatype Posted = Posted(user_id: nat, event_type: string, event_data: Json)

  /** A local storage entry as `getItem` returns it: null or a string. */
  function StoredValue(entry: Option<string>): Input<string> {
    if entry.Some? then Given(entry.value) else Null
  }

  // ---------------------------------------------------------------------
  // Theme

  /** `localStorage.getItem('theme') || 'light'`. */
  function SavedTheme(entry: Option<string>): (theme: string)
    ensures entry.Some? && entry.value != "" ==> theme == entry.value
    ensures entry.None? || entry.value == "" ==> theme == "light"
  {
    OrElse(StoredValue(entry), "light")
  }

  /** updateThemeIcon: a sun in the dark theme, a moon otherwise. */
  function ThemeIcon(theme: string): (c: string)
    ensures c == "fa-solid fa-sun" <==> theme == "dark"
    ensures c == "fa-solid fa-sun" || c == "fa-solid fa-moon"
  {
    if theme == "dark" then "fa-solid fa-sun" else "fa-solid fa-moon"
  }

  /** The theme the toggle switches to: light from the dark theme, dark
      from anything else. */
  function Toggled(bodyClass: string): (theme: string)
    ensures theme == "light" <==> bodyClass == "dark-theme"
    ensures theme == "dark" || theme == "light"
  {
    if bodyClass == "dark-theme" then "light" else "dark"
  }

  /** From either theme, toggling twice comes back to it. */
  lemma ToggleTwice(bodyClass: string)
    requires bodyClass == "light-theme" || bodyClass == "dark-theme"
    ensures Toggled(Toggled(bodyClass) + "-theme") + "-theme" == bodyClass
  {
    if bodyClass == "light-theme" {
      assert Toggled(bodyClass) == "dark";
    }
  }

  /** The flag initOnboarding reads: any non-empty stored string. */
  predicate OnboardingDone(entry: Option<string>) {
    Truthy(StoredValue(entry))
  }

  // ---------------------------------------------------------------------
  // The page

  class Page {
    var bodyClass: string
    var themeIcon: string
    /** localStorage `theme`. */
    var themeSetting: Option<string>
    /** localStorage `onboardingCompleted`. */
    var onboardingSetting: Option<string>
    var wizardHidden: bool
    var currentStep: int
    /** The `data-step` of the wizard panel marked active. */
    var activeStep: int
    /** Whether each `.dot` is marked active, in document order. */
    const dots: array<bool>
    var prevDisabled: bool
    var nextLabel: string
    var posted: seq<Posted>

    ghost predicate Valid()
      reads this
    {
      1 <= currentStep <= TotalSteps
    }

    /** The page as loaded, with `dotCount` dots and the given storage; the
        wizard starts at step 1. */
    constructor (dotCount: nat, themeSetting: Option<string>, onboardingSetting: Option<string>)
      ensures Valid() && currentStep == 1 && posted == []
      ensures fresh(dots) && dots.Length == dotCount
      ensures this.themeSetting == themeSetting && this.onboardingSetting == onboardingSetting
    {
      bodyClass, themeIcon := "", "";
      this.themeSetting, this.onboardingSetting := themeSetting, onboardingSetting;
      wizardHidden, currentStep, activeStep := false, 1, 1;
      dots := new bool[dotCount](_ => false);
      prevDisabled, nextLabel, posted := false, "", [];
    }

    /** The page's `trackEvent`. */
    method Post(eventType: string, eventData: Json)
      modifies this`posted
      ensures posted == old(posted) + [Posted(CurrentUserId, eventType, eventData)]
    {
      posted := posted + [Posted(CurrentUserId, eventType, eventData)];
    }

    /** initTheme: apply the saved theme, light when none is saved. */
    method InitTheme()
      modifies this`bodyClass, this`themeIcon
      ensures bodyClass == SavedTheme(themeSetting) + "-theme"
      ensures themeIcon == ThemeIcon(SavedTheme(themeSetting))
    {
      var saved := SavedTheme(themeSetting);
      bodyClass := saved + "-theme";
      themeIcon := ThemeIcon(saved);
    }

    /** The theme button: switch theme, save it, report `theme_changed`.
        The saved value brings the page back to the same theme on reload. */
    method ToggleTheme()
      modifies this`bodyClass, this`themeIcon, this`themeSetting, this`posted
      ensures bodyClass == Toggled(old(bodyClass)) + "-theme"
      ensures themeSetting == Some(Toggled(old(bodyClass)))
      ensures themeIcon == ThemeIcon(Toggled(old(bodyClass)))
      ensures posted == old(posted) + [Posted(CurrentUserId, "theme_changed", JObj(map["theme" := JStr(Toggled(old(bodyClass)))]))]
      ensures SavedTheme(themeSetting) + "-theme" == bodyClass
    {
      var current := if bodyClass == "dark-theme" then "dark" else "light";
      var newTheme := if current == "dark" then "light" else "dark";
      bodyClass := newTheme + "-theme";
      themeSetting := Some(newTheme);
      themeIcon := ThemeIcon(newTheme);
      Post("theme_changed", JObj(map["theme" := JStr(newTheme)]));
    }

    /** initOnboarding: show the wizard unless onboarding was completed. */
    method InitOnboarding()
      modifies this`wizardHidden
      ensures wizardHidden == OnboardingDone(onboardingSetting)
    {
      wizardHidden := OnboardingDone(onboardingSetting);
    }

    /** completeOnboarding: hide the wizard, remember it, report it; the next
        initOnboarding keeps the wizard hidden. */
    method CompleteOnboarding()
      modifies this`wizardHidden, this`onboardingSetting, this`posted
      ensures wizardHidden && onboardingSetting == Some("true")
      ensures OnboardingDone(onboardingSetting)
      ensures posted == old(posted) + [Posted(CurrentUserId, "onboarding_completed", JObj(map[]))]
    {
      wizardHidden := true;
      onboardingSetting := Some("true");
      Post("onboarding_completed", JObj(map[]));
    }

    /** updateWizardStep: show panel `step`, mark only its dot, disable Prev
        on the first step and label Next "Get Started" on the last.  The
        markup has panels 1 to 4 only, so the callers pass a step in range. */
    method UpdateWizardStep(step: int)
      requires 1 <= step <= TotalSteps
      modifies this`activeStep, this`prevDisabled, this`nextLabel, dots
      ensures activeStep == step
      ensures forall i :: 0 <= i < dots.Length ==> (dots[i] <==> i == step - 1)
      ensures prevDisabled <==> step == 1
      ensures nextLabel == "Get Started" <==> step == TotalSteps
      ensures nextLabel == "Get Started" || nextLabel == "Next"
    {
      var index := 0;
      while index < dots.Length
        invariant 0 <= index <= dots.Length
        invariant forall i :: 0 <= i < index ==> (dots[i] <==> i == step - 1)
      {
        dots[index] := index + 1 == step;
        index := index + 1;
      }
      activeStep := step;
      prevDisabled := step == 1;
      nextLabel := if step == TotalSteps then "Get Started" else "Next";
    }

    /** The Next button: one step forward, or complete onboarding on the
        last step. */
    method Next()
      requires Valid()
      modifies this`currentStep, this`activeStep, this`prevDisabled, this`nextLabel, dots
      modifies this`wizardHidden, this`onboardingSetting, this`posted
      ensures Valid()
      ensures old(currentStep) < TotalSteps ==>
        && currentStep == old(currentStep) + 1 && activeStep == currentStep
        && (forall i :: 0 <= i < dots.Length ==> (dots[i] <==> i == currentStep - 1))
        && (prevDisabled <==> currentStep == 1)
        && (nextLabel == "Get Started" <==> currentStep == TotalSteps)
        && wizardHidden == old(wizardHidden) && onboardingSetting == old(onboardingSetting)
        && posted == old(posted)
      ensures old(currentStep) == TotalSteps ==>
        && currentStep == old(currentStep)
        && activeStep == old(activeStep) && prevDisabled == old(prevDisabled)
        && nextLabel == old(nextLabel) && dots[..] == old(dots[..])
        && wizardHidden && onboardingSetting == Some("true")
        && posted == old(posted) + [Posted(CurrentUserId, "onboarding_completed", JObj(map[]))]
    {
      if currentStep < TotalSteps {
        currentStep := currentStep + 1;
        UpdateWizardStep(currentStep);
      } else {
        CompleteOnboarding();
      }
    }

    /** The Prev button: one step back, except on the first step. */
    method Prev()
      requires Valid()
      modifies this`currentStep, this`activeStep, this`prevDisabled, this`nextLabel, dots
      ensures Valid()
      ensures old(currentStep) > 1 ==>
        && currentStep == old(currentStep) - 1 && activeStep == currentStep
        && (forall i :: 0 <= i < dots.Length ==> (dots[i] <==> i == currentStep - 1))
        && (prevDisabled <==> currentStep == 1)
        && (nextLabel == "Get Started" <==> currentStep == TotalSteps)
      ensures old(currentStep) == 1 ==>
        && currentStep == 1 && activeStep == old(activeStep)
        && prevDisabled == old(prevDisabled) && nextLabel == old(nextLabel)
        && dots[..] == old(dots[..])
    {
      if currentStep > 1 {
        currentStep := currentStep - 1;
        UpdateWizardStep(currentStep);
      }
    }
  }

  // ---------------------------------------------------------------------
  // The saved icon

  /** `iconName.value || 'heart'` (an input's value is always a string). */
  function SavedIconName(input: string): (name: string)
    ensures name != ""
    ensures input != "" ==> name == input
    ensures input == "" ==> name == "heart"
  {
    OrElse(Given(input), "heart")
  }

  /** The Font Awesome class string the save handler submits. */
  function IconClass(style: string, name: string): (c: string)
    ensures |c| == |style| + |name| + 7
    ensures c[..3] == "fa-" && c[3..3 + |style|] == style
    ensures c[3 + |style|..7 + |style|] == " fa-" && c[7 + |style|..] == name
  {
    "fa-" + style + " fa-" + name
  }

  /** The index of the first space of `s`, or `|s|` when it has none. */
  function FirstSpace(s: string): (i: nat)
    ensures i <= |s| && (i < |s| ==> s[i] == ' ')
    ensures forall k :: 0 <= k < i ==> s[k] != ' '
  {
    if s == [] then 0 else if s[0] == ' ' then 0 else 1 + FirstSpace(s[1..])
  }

  /** Read a style and a name back from a class string of the form
      `fa-<style> fa-<name>`. */
  function ParseIconClass(c: string): Option<(string, string)> {
    var i := FirstSpace(c);
    if 3 <= i && c[..3] == "fa-" && i + 4 <= |c| && c[i..i + 4] == " fa-"
    then Some((c[3..i], c[i + 4..]))
    else None
  }

  /** The submitted class names its style and icon unambiguously: both are
      read back from it whenever the style has no space (the style select
      offers single words). */
  lemma IconClassRoundTrip(style: string, name: string)
    requires forall k :: 0 <= k < |style| ==> style[k] != ' '
    ensures ParseIconClass(IconClass(style, name)) == Some((style, name))
  {
    var c := IconClass(style, name);
    assert forall k :: 0 <= k < |style| ==> c[3 + k] == style[k];
    assert c[3 + |style|] == ' ';
    assert FirstSpace(c) == 3 + |style|;
    assert c[3 + |style|..3 + |style| + 4] == " fa-";
    assert c[3..3 + |style|] == style;
    assert c[3 + |style| + 4..] == name;
  }

  /** The row the server stores for a saved icon: the name is never empty,
      the class is the submitted one, and the stored style is the selected
      one, or `solid` when none is selected while the class keeps the empty
      style. */
  lemma SavedIconStored(nameInput: string, style: string, color: string, size: string, stamp: nat)
    ensures var name := SavedIconName(nameInput);
      var row := Icons.NewIcon(CurrentUserId, Given(name), Given(IconClass(style, name)),
                               Given(color), Given(size), Given(style), stamp);
      && row.icon_name == Some(name) && name != ""
      && row.icon_class == Some(IconClass(style, name))
      && row.style == Some(if style == "" then Icons.DefaultStyle else style)
      && row.color == Some(if color == "" then Icons.DefaultColor else color)
      && row.size == Some(if size == "" then Icons.DefaultSize else size)
      && row.user_id == CurrentUserId
  {
  }

  /** The `sizeMap` lookup: a CSS font size for the four sizes the select
      offers, nothing (rendered as `undefined`) for any other value. */
  function FontSize(size: string): (r: Option<string>)
    ensures r.Some? <==> size == "small" || size == "medium" || size == "large" || size == "xlarge"
    ensures size == Icons.DefaultSize ==> r == Some("3rem")
  {
    if size == "small" then Some("2rem")
    else if size == "medium" then Some("3rem")
    else if size == "large" then Some("5rem")
    else if size == "xlarge" then Some("7rem")
    else None
  }

  // ---------------------------------------------------------------------
  // Polling a submitted video

  /** What checkVideoStatus gets: a parsed body (whose `status` may be
      missing, as in a not-found answer), or a failed fetch or parse. */
  datatype Reply = Fetched(status: Option<string>) | Unreachable

  /** What it does next. */
  datatype Poll = ShowSuccess | ShowFailure | PollAgain(delayMs: nat) | Stop

  const PollDelayMs: nat := 5000

  /** checkVideoStatus: report a completed or failed video, poll again after
      5 seconds on any other answer, and give up (only logging) when the
      request or its parsing fails. */
  function NextPoll(reply: Reply): (p: Poll)
    ensures p == ShowSuccess <==> reply == Fetched(Some("completed"))
    ensures p == ShowFailure <==> reply == Fetched(Some("failed"))
    ensures p.PollAgain? <==> reply.Fetched? && reply.status != Some("completed") && reply.status != Some("failed")
    ensures p.PollAgain? ==> p.delayMs == PollDelayMs
    ensures p == Stop <==> reply.Unreachable?
  {
    match reply
    case Unreachable => Stop
    case Fetched(status) =>
      if status == Some("completed") then ShowSuccess
      else if status == Some("failed") then ShowFailure
      else PollAgain(PollDelayMs)
  }

  /** The body getVideoById answers with: the row, whose status is one of the
      four names, or an error object without a status. */
  function ReplyFor(rows: map<nat, Videos.Video>, id: nat): (reply: Reply)
    ensures reply.Fetched?
    ensures reply.status.Some? <==> id in rows
    ensures id in rows ==> reply.status == Some(rows[id].status.Name())
  {
    match Table.Find(rows, id)
    case Some(v) => Fetched(Some(v.status.Name()))
    case None => Fetched(None)
  }

  /** Polling a stored video stops exactly when its status is terminal,
      with success exactly when it completed. */
  lemma PollingStopsOnTerminal(rows: map<nat, Videos.Video>, id: nat)
    requires id in rows
    ensures NextPoll(ReplyFor(rows, id)).PollAgain? <==> !rows[id].status.Terminal()
    ensures NextPoll(ReplyFor(rows, id)) == ShowSuccess <==> rows[id].status == Videos.Completed
    ensures NextPoll(ReplyFor(rows, id)) == ShowFailure <==> rows[id].status == Videos.Failed
  {
    match rows[id].status
    case Pending => assert "pending" != "completed" && "pending" != "failed";
    case Processing => assert "processing" != "completed" && "processing" != "failed";
    case Completed =>
    case Failed =>
  }

  /** Once generation has run on the video, the next poll reports its
      outcome and polling ends. */
  lemma PollingEndsAfterGeneration(rows: map<nat, Videos.Video>, id: nat, succeeded: bool)
    requires id in rows
    ensures var after := rows[id := Videos.Generated(rows[id], id, succeeded)];
      NextPoll(ReplyFor(after, id)) == if succeeded then ShowSuccess else ShowFailure
  {
    var after := rows[id := Videos.Generated(rows[id], id, succeeded)];
    PollingStopsOnTerminal(after, id);
  }

  /** A video deleted while it is being polled is polled forever: the
      not-found body has no status, which counts as still processing. */
  lemma DeletedVideoPolledForever(rows: map<nat, Videos.Video>, id: nat)
    requires id !in rows
    ensures NextPoll(ReplyFor(rows, id)) == PollAgain(PollDelayMs)
  {
  }
}
