/** The page controller (`GlobalInnovationUniversity` / `TechNovaUniversity`):
    the parts of the page it writes (programme grid, programme select, fee
    list, lead form, submit button, message banner, the two modals) and the
    handlers that write them. The network is an input: a load is a
    `Catalog.Load`, a POST ends in a `PostOutcome`; the clock is the
    `timestamp` argument; a timer is recorded as scheduled and never fires. */
module Page {

  import opened Wrappers
  import opened Html
  import opened Catalog
  import opened Lead
  import opened Sites
  import GlobalInnovation
  import TechNova

  /** The form's submit button: its `innerHTML` (`content`) and `disabled`. */
  datatype Button = Button(content: seq<Node>, disabled: bool)

  /** The `#formMessage` banner: its content, `className`, `style.display`,
      and whether the 7-second hide is pending. */
  datatype MessageBox = MessageBox(content: seq<Node>, className: string, display: string, hideScheduled: bool)

  /** How the POST to the webhook ended: a response (`response.ok`), or an
      exception thrown by `fetch`. */
  datatype PostOutcome = Responded(ok: bool) | Threw

  /** How `handleFormSubmit` left off before awaiting the response: the form
      was rejected, the button lookup failed inside the `try`, or the record
      was posted and is awaiting its response. */
  datatype SubmitStep = Rejected(verdict: Verdict) | Aborted | InFlight(request: LeadSubmission)

  /** `showFormMessage` on a banner: nothing happens when there is no banner
      element; otherwise it shows `content` with class `form-message kind`
      and schedules the hide. */
  function Shown(box: Option<MessageBox>, content: seq<Node>, kind: string): Option<MessageBox>
  {
    if box.None? then None else Some(MessageBox(content, "form-message " + kind, "block", true))
  }

  /** A container's `innerHTML` after a renderer ran: untouched when the
      element is missing, replaced otherwise. */
  function Rendered(slot: Option<seq<Node>>, content: seq<Node>): Option<seq<Node>>
  {
    if slot.None? then None else Some(content)
  }

  class LeadPage {
    const site: Site
    /** The site's literals, `ProfileOf(site)`. */
    const profile: Profile
    /** The lists `loadFallbackCourses` and `loadFallbackFees` render. */
    const fallbackCourses: seq<Course>
    const fallbackFees: seq<Fee>
    /** The values `form.reset()` restores. */
    const defaults: FormFields

    var form: FormFields
    var button: Option<Button>
    var messageBox: Option<MessageBox>
    var leadModalDisplay: string
    var feeModalDisplay: string
    var bodyOverflow: string
    /** The 3-second `closeModal` after a successful submission is pending. */
    var closeScheduled: bool
    var coursesGrid: Option<seq<Node>>
    /** The options of the `#course` select. The select is also the form
        control `collectFormData` reads, so like every form control it is
        always present. */
    var courseSelect: seq<Node>
    var feeContent: Option<seq<Node>>
    /** Every record POSTed to the webhook, oldest first. */
    var posts: seq<LeadSubmission>
    /** The record whose POST is awaiting its response. */
    var pending: Option<LeadSubmission>

    /** The literals the contracts speak of are the site's: its profile and
        its fallback lists. They are constants, so this holds for good once the
        constructor has established it. */
    predicate OfSite()
    {
      profile == ProfileOf(site) && fallbackCourses == FallbackCourses(site) && fallbackFees == FallbackFees(site)
    }

    /** The submit button is disabled exactly while a POST is in flight, and
        shows the loading label then; every POST ever issued carried a valid
        phone number, a ticked consent box and the site's constants. */
    predicate Valid()
      reads this`button, this`pending, this`posts
    {
      && (button.Some? ==> (button.value.disabled <==> pending.Some?))
      && (pending.Some? ==>
            button == Some(Button(profile.submittingLabel, true)) &&
            |posts| > 0 && posts[|posts| - 1] == pending.value)
      && (forall i :: 0 <= i < |posts| ==>
            Admissible(posts[i]) &&
            posts[i].university == profile.stamp.university &&
            posts[i].source == profile.stamp.source &&
            posts[i].leadType == profile.stamp.leadType)
    }

    /** `new X()`: the page as the markup leaves it: the form's default
        values, the button's initial label, the banner, the select's options
        and the two containers, `None` for an element the markup lacks. The
        loads that `init` starts settle after the constructor has returned;
        they are the separate call `LoadInitialData`. */
    constructor (site: Site, defaults: FormFields, buttonLabel: Option<seq<Node>>, banner: Option<MessageBox>,
                 grid: Option<seq<Node>>, options: seq<Node>, feeList: Option<seq<Node>>)
      requires banner.Some? ==> !banner.value.hideScheduled
      ensures Valid()
      ensures this.site == site && OfSite()
      ensures this.defaults == defaults && form == defaults
      ensures button == if buttonLabel.None? then None else Some(Button(buttonLabel.value, false))
      ensures messageBox == banner
      ensures posts == [] && pending == None && !closeScheduled
      ensures coursesGrid == grid && courseSelect == options && feeContent == feeList
    {
      this.site := site;
      profile := ProfileOf(site);
      fallbackCourses, fallbackFees := FallbackCourses(site), FallbackFees(site);
      this.defaults := defaults;
      form := defaults;
      button := if buttonLabel.None? then None else Some(Button(buttonLabel.value, false));
      messageBox := banner;
      leadModalDisplay, feeModalDisplay, bodyOverflow := "", "", "";
      closeScheduled := false;
      coursesGrid, courseSelect, feeContent := grid, options, feeList;
      posts, pending := [], None;
      new;
    }

    // ------------------------------------------------------ reference data

    method DisplayCourses(cs: seq<Course>)
      modifies this`coursesGrid
      ensures coursesGrid == Rendered(old(coursesGrid), CourseCards(cs))
    {
      coursesGrid := Rendered(coursesGrid, CourseCards(cs));
    }

    method PopulateCourseSelect(cs: seq<Course>)
      modifies this`courseSelect
      ensures courseSelect == CourseSelect(profile.selectPlaceholder, cs)
    {
      courseSelect := CourseSelect(profile.selectPlaceholder, cs);
    }

    method DisplayFeeData(fs: seq<Fee>)
      modifies this`feeContent
      ensures feeContent == Rendered(old(feeContent), FeeItems(profile.feeCaptions, fs))
    {
      feeContent := Rendered(feeContent, FeeItems(profile.feeCaptions, fs));
    }

    method LoadFallbackCourses()
      modifies this`coursesGrid, this`courseSelect
      ensures coursesGrid == Rendered(old(coursesGrid), CourseCards(fallbackCourses))
      ensures courseSelect == CourseSelect(profile.selectPlaceholder, fallbackCourses)
    {
      DisplayCourses(fallbackCourses);
      PopulateCourseSelect(fallbackCourses);
    }

    method LoadFallbackFees()
      modifies this`feeContent
      ensures feeContent == Rendered(old(feeContent), FeeItems(profile.feeCaptions, fallbackFees))
    {
      DisplayFeeData(fallbackFees);
    }

    /** `loadCourses`: a body that parsed is rendered into the grid and the
        select; any exception renders the fallback list into both. The HTTP
        status is not consulted. */
    method LoadCourses(load: Load<Course>)
      modifies this`coursesGrid, this`courseSelect
      ensures coursesGrid == Rendered(old(coursesGrid), CourseCards(LoadedItems(load, fallbackCourses)))
      ensures courseSelect == CourseSelect(profile.selectPlaceholder, LoadedItems(load, fallbackCourses))
    {
      match load
      case Fetched(cs) =>
        DisplayCourses(cs);
        PopulateCourseSelect(cs);
      case Failed =>
        LoadFallbackCourses();
    }

    /** `loadFeeData`: the same rule for the fee list. */
    method LoadFeeData(load: Load<Fee>)
      modifies this`feeContent
      ensures feeContent == Rendered(old(feeContent), FeeItems(profile.feeCaptions, LoadedItems(load, fallbackFees)))
    {
      match load
      case Fetched(fs) =>
        DisplayFeeData(fs);
      case Failed =>
        LoadFallbackFees();
    }

    /** `loadInitialData`: the two loads touch disjoint parts of the page, so
        running them one after the other gives what either interleaving gives. */
    method LoadInitialData(courses: Load<Course>, fees: Load<Fee>)
      modifies this`coursesGrid, this`courseSelect, this`feeContent
      ensures coursesGrid == Rendered(old(coursesGrid), CourseCards(LoadedItems(courses, fallbackCourses)))
      ensures courseSelect == CourseSelect(profile.selectPlaceholder, LoadedItems(courses, fallbackCourses))
      ensures feeContent == Rendered(old(feeContent), FeeItems(profile.feeCaptions, LoadedItems(fees, fallbackFees)))
    {
      LoadCourses(courses);
      LoadFeeData(fees);
    }

    // ---------------------------------------------------------- lead form

    method ShowFormMessage(content: seq<Node>, kind: string)
      modifies this`messageBox
      ensures messageBox == Shown(old(messageBox), content, kind)
    {
      messageBox := Shown(messageBox, content, kind);
    }

    method ShowSuccessMessage(r: LeadSubmission)
      modifies this`messageBox
      ensures messageBox == Shown(old(messageBox), SuccessMessage(site, r), "success")
    {
      ShowFormMessage(SuccessMessage(site, r), "success");
    }

    method ShowErrorMessage()
      modifies this`messageBox
      ensures messageBox == Shown(old(messageBox), [Text(profile.submitError)], "error")
    {
      ShowFormMessage([Text(profile.submitError)], "error");
    }

    /** `validateForm`: the phone first, then the consent box; the first rule
        that fails puts its message in the banner. */
    method ValidateForm() returns (verdict: Verdict)
      modifies this`messageBox
      ensures verdict == Validate(form.phone, form.consent)
      ensures verdict == Accepted ==> messageBox == old(messageBox)
      ensures !IsValidPhone(form.phone) ==>
                messageBox == Shown(old(messageBox), [Text(profile.phoneError)], "error")
      ensures IsValidPhone(form.phone) && !form.consent ==>
                messageBox == Shown(old(messageBox), [Text(profile.consentError)], "error")
    {
      PhonePatternAcceptsValidPhones(form.phone);
      if !Matches(PhonePattern, form.phone) {
        ShowFormMessage([Text(profile.phoneError)], "error");
        return BadPhone;
      }
      if !form.consent {
        ShowFormMessage([Text(profile.consentError)], "error");
        return NoConsent;
      }
      return Accepted;
    }

    /** `collectFormData`: the current form values with the site's constants
        and the time of the call. */
    method CollectFormData(timestamp: string) returns (r: LeadSubmission)
      ensures FormOf(r) == form && r.timestamp == timestamp
      ensures r.university == profile.stamp.university && r.source == profile.stamp.source
      ensures r.leadType == profile.stamp.leadType
    {
      r := Collect(profile.stamp, form, timestamp);
    }

    method ResetForm()
      modifies this`form
      ensures form == defaults
    {
      form := defaults;
    }

    /** `handleFormSubmit` up to the `await fetch`. A rejected form changes
        nothing but the banner: no POST, the button as it was. Without a
        submit button the first statement of the `try` throws, so the banner
        shows the failure message and nothing is posted. Otherwise the button
        is disabled with its loading label and the record is posted. */
    method StartSubmit(timestamp: string) returns (step: SubmitStep)
      requires Valid() && pending.None?
      modifies this`messageBox, this`button, this`posts, this`pending
      ensures Valid()
      ensures step.Rejected? <==> Validate(form.phone, form.consent) != Accepted
      ensures step.Aborted? <==> Validate(form.phone, form.consent) == Accepted && old(button).None?
      ensures step.Rejected? ==>
                step.verdict == Validate(form.phone, form.consent) &&
                messageBox == Shown(old(messageBox),
                  [Text(if IsValidPhone(form.phone) then profile.consentError else profile.phoneError)], "error") &&
                button == old(button) && posts == old(posts) && pending == None
      ensures step.Aborted? ==>
                messageBox == Shown(old(messageBox), [Text(profile.submitError)], "error") &&
                button == None && posts == old(posts) && pending == None
      ensures step.InFlight? ==>
                step.request == Collect(profile.stamp, form, timestamp) &&
                Admissible(step.request) &&
                messageBox == old(messageBox) &&
                button == Some(Button(profile.submittingLabel, true)) &&
                posts == old(posts) + [step.request] && pending == Some(step.request)
    {
      var verdict := ValidateForm();
      if verdict != Accepted {
        return Rejected(verdict);
      }
      var r := CollectFormData(timestamp);
      if button.None? {
        ShowErrorMessage();
        return Aborted;
      }
      button := Some(Button(profile.submittingLabel, true));
      posts := posts + [r];
      pending := Some(r);
      step := InFlight(r);
    }

    /** `handleFormSubmit` after the `await fetch`. Only `response.ok` shows
        the success message, resets the form and schedules the modal close;
        a non-ok status is thrown and, like an exception of `fetch`, shows
        the failure message and leaves the form as it was. The `finally`
        block re-enables the button with its resting label in every case. */
    method FinishSubmit(outcome: PostOutcome) returns (succeeded: bool)
      requires Valid() && pending.Some?
      modifies this`messageBox, this`button, this`pending, this`form, this`closeScheduled
      ensures Valid()
      ensures succeeded <==> outcome == Responded(true)
      ensures pending == None && button == Some(Button(profile.submitLabel, false))
      ensures succeeded ==>
                messageBox == Shown(old(messageBox), SuccessMessage(site, old(pending).value), "success") &&
                form == defaults && closeScheduled
      ensures !succeeded ==>
                messageBox == Shown(old(messageBox), [Text(profile.submitError)], "error") &&
                form == old(form) && closeScheduled == old(closeScheduled)
    {
      var r := pending.value;
      succeeded := outcome == Responded(true);
      if succeeded {
        ShowSuccessMessage(r);
        ResetForm();
        closeScheduled := true;
      } else {
        ShowErrorMessage();
      }
      pending := None;
      button := Some(Button(profile.submitLabel, false));
    }

    /** The whole of `handleFormSubmit` for one submit event whose POST, if
        any, ends in `outcome`. */
    method HandleFormSubmit(timestamp: string, outcome: PostOutcome) returns (step: SubmitStep, succeeded: bool)
      requires Valid() && pending.None?
      modifies this`messageBox, this`button, this`posts, this`pending, this`form, this`closeScheduled
      ensures Valid() && pending == None
      ensures step.Rejected? <==> Validate(old(form).phone, old(form).consent) != Accepted
      ensures step.Rejected? ==> step.verdict == Validate(old(form).phone, old(form).consent)
      ensures step.InFlight? <==> Validate(old(form).phone, old(form).consent) == Accepted && old(button).Some?
      ensures posts == if step.InFlight? then old(posts) + [Collect(profile.stamp, old(form), timestamp)] else old(posts)
      ensures succeeded <==> step.InFlight? && outcome == Responded(true)
      ensures button == if step.Rejected? || old(button).None? then old(button)
                        else Some(Button(profile.submitLabel, false))
      ensures form == if succeeded then defaults else old(form)
      ensures closeScheduled == (old(closeScheduled) || succeeded)
      ensures messageBox ==
                if step.Rejected? then
                  Shown(old(messageBox),
                    [Text(if IsValidPhone(old(form).phone) then profile.consentError else profile.phoneError)], "error")
                else if succeeded then
                  Shown(old(messageBox), SuccessMessage(site, Collect(profile.stamp, old(form), timestamp)), "success")
                else
                  Shown(old(messageBox), [Text(profile.submitError)], "error")
    {
      step := StartSubmit(timestamp);
      succeeded := false;
      if step.InFlight? {
        succeeded := FinishSubmit(outcome);
      }
    }

    // -------------------------------------------------------------- modals

    method OpenModal()
      modifies this`leadModalDisplay, this`bodyOverflow
      ensures leadModalDisplay == "block" && bodyOverflow == "hidden"
    {
      leadModalDisplay := "block";
      bodyOverflow := "hidden";
    }

    method CloseModal()
      modifies this`leadModalDisplay, this`bodyOverflow
      ensures leadModalDisplay == "none" && bodyOverflow == "auto"
    {
      leadModalDisplay := "none";
      bodyOverflow := "auto";
    }

    method OpenFeeModal()
      modifies this`feeModalDisplay, this`bodyOverflow
      ensures feeModalDisplay == "block" && bodyOverflow == "hidden"
    {
      feeModalDisplay := "block";
      bodyOverflow := "hidden";
    }

    method CloseFeeModal()
      modifies this`feeModalDisplay, this`bodyOverflow
      ensures feeModalDisplay == "none" && bodyOverflow == "auto"
    {
      feeModalDisplay := "none";
      bodyOverflow := "auto";
    }

    /** The visitor typing into the form (not part of the script). */
    method Fill(f: FormFields)
      modifies this`form
      ensures form == f
    {
      form := f;
    }
  }

  /** The items a load renders: what was fetched, or the fallback list. */
  function LoadedItems<T>(load: Load<T>, fallback: seq<T>): seq<T>
  {
    if load.Fetched? then load.items else fallback
  }

  /** On any page the constructor built, the labels, messages and fallback
      lists the contracts speak of are the literals of the page's site. */
  lemma OfSiteFixesLiterals(p: LeadPage)
    requires p.OfSite()
    ensures p.site == GlobalInnovationUniversity ==>
              p.profile.submitLabel == GlobalInnovation.SubmitLabel &&
              p.profile.submitError == GlobalInnovation.SubmitError &&
              p.fallbackCourses == GlobalInnovation.FallbackCourses && p.fallbackFees == GlobalInnovation.FallbackFees &&
              |p.fallbackCourses| == 6 && |p.fallbackFees| == 3
    ensures p.site == TechNovaUniversity ==>
              p.profile.submitLabel == TechNova.SubmitLabel &&
              p.profile.submitError == TechNova.SubmitError &&
              p.fallbackCourses == TechNova.FallbackCourses && p.fallbackFees == TechNova.FallbackFees &&
              |p.fallbackCourses| == 6 && |p.fallbackFees| == 3
  {
    FallbackListsAgree(p.site);
  }
}
