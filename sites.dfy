/** The two sites whose scripts share the lead-form pipeline, and the
    literals in which they differ, gathered in one profile per site. */
module Sites {

  import opened Wrappers
  import opened Html
  import opened Catalog
  import opened Lead
  import GlobalInnovation
  import TechNova

  /** Which controller class: `GlobalInnovationUniversity` or `TechNovaUniversity`. */
  datatype Site = GlobalInnovationUniversity | TechNovaUniversity

  datatype Profile = Profile(
    stamp: Branding,
    selectPlaceholder: string,
    feeCaptions: FeeLabels,
    phoneError: string,
    consentError: string,
    submitError: string,
    submittingLabel: seq<Node>,
    submitLabel: seq<Node>)

  function ProfileOf(s: Site): Profile
  {
    match s
    case GlobalInnovationUniversity =>
      Profile(GlobalInnovation.Stamp, GlobalInnovation.SelectPlaceholder, GlobalInnovation.FeeCaptions,
        GlobalInnovation.PhoneError, GlobalInnovation.ConsentError, GlobalInnovation.SubmitError,
        GlobalInnovation.SubmittingLabel, GlobalInnovation.SubmitLabel)
    case TechNovaUniversity =>
      Profile(TechNova.Stamp, TechNova.SelectPlaceholder, TechNova.FeeCaptions,
        TechNova.PhoneError, TechNova.ConsentError, TechNova.SubmitError,
        TechNova.SubmittingLabel, TechNova.SubmitLabel)
  }

  /** The programmes `loadFallbackCourses` renders. */
  function FallbackCourses(s: Site): seq<Course>
  {
    match s
    case GlobalInnovationUniversity => GlobalInnovation.FallbackCourses
    case TechNovaUniversity => TechNova.FallbackCourses
  }

  /** The fee entries `loadFallbackFees` renders. */
  function FallbackFees(s: Site): seq<Fee>
  {
    match s
    case GlobalInnovationUniversity => GlobalInnovation.FallbackFees
    case TechNovaUniversity => TechNova.FallbackFees
  }

  function SuccessMessage(s: Site, r: LeadSubmission): seq<Node>
  {
    match s
    case GlobalInnovationUniversity => GlobalInnovation.SuccessMessage(r)
    case TechNovaUniversity => TechNova.SuccessMessage(r)
  }

  /** The two rejection messages and the failure banner are three different texts. */
  lemma MessagesAreDistinct(s: Site)
    ensures ProfileOf(s).phoneError != ProfileOf(s).consentError
    ensures ProfileOf(s).submitError != ProfileOf(s).phoneError
    ensures ProfileOf(s).submitError != ProfileOf(s).consentError
  {
    var p := ProfileOf(s);
    match s
    case GlobalInnovationUniversity =>
      assert |p.phoneError| == 71 && |p.consentError| == 79 && |p.submitError| == 102;
    case TechNovaUniversity =>
      assert |p.phoneError| == 69 && |p.consentError| == 67 && |p.submitError| == 146;
  }

  /** Global Innovation records carry `type: 'admission_inquiry'`; TechNova
      records have no `type` property at all. */
  lemma RecordShape(s: Site, f: FormFields, timestamp: string)
    ensures var keys := JsonKeys(Collect(ProfileOf(s).stamp, f, timestamp));
      match s
      case GlobalInnovationUniversity =>
        Collect(ProfileOf(s).stamp, f, timestamp).leadType == Some("admission_inquiry") && |keys| == 11
      case TechNovaUniversity => "type" !in keys && |keys| == 10
  {
  }

  /** The fallback lists: six programmes and three fee entries, the fee
      entries for the first three programmes in the same order, each with a
      breakdown. */
  lemma FallbackListsAgree(s: Site)
    ensures |FallbackCourses(s)| == 6 && |FallbackFees(s)| == 3
    ensures forall i :: 0 <= i < 3 ==>
              FallbackFees(s)[i].course == FallbackCourses(s)[i].name &&
              FallbackFees(s)[i].breakdown.Some?
  {
  }

  /** Every card of the fallback fee list shows its breakdown block. */
  lemma FallbackFeeCardsShowBreakdowns(s: Site)
    ensures forall i :: 0 <= i < |FallbackFees(s)| ==>
              HasChildOfClass(FeeItems(ProfileOf(s).feeCaptions, FallbackFees(s))[i], "fee-breakdown")
  {
    var p := ProfileOf(s);
    FallbackListsAgree(s);
    forall i | 0 <= i < |FallbackFees(s)|
      ensures HasChildOfClass(FeeItems(p.feeCaptions, FallbackFees(s))[i], "fee-breakdown")
    {
      FeeItemBreakdownExactly(p.feeCaptions, FallbackFees(s)[i]);
    }
  }
}
