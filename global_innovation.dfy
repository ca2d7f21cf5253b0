/** The literals of the Global Innovation University page script: the
    constants stamped on a lead, the wording of the form's messages and
    button, the fee card captions, the success message and the fallback
    programme and fee lists. */
module GlobalInnovation {

  import opened Wrappers
  import opened Html
  import opened Catalog
  import opened Lead

  const Stamp: Branding := Branding("Global Innovation University", "website_inquiry", Some("admission_inquiry"))

  const SelectPlaceholder: string := "Select program"

  const FeeCaptions: FeeLabels := FeeLabels("fee-amount", "Tuition Fee:", "Hostel & Mess:", "Other Charges:")

  const PhoneError: string := "Please provide a valid 10-digit Indian mobile number starting with 6-9."

  const ConsentError: string := "Please consent to receive information about our programs and admission updates."

  const SubmitError: string :=
    "❌ Sorry, there was an error submitting your inquiry. Please try again or contact our admission office."

  /** The submit button while the request is in flight. */
  const SubmittingLabel: seq<Node> := [Classed("i", "fas fa-spinner fa-spin", []), Text(" Submitting...")]

  /** The submit button once the request has settled. */
  const SubmitLabel: seq<Node> := [Classed("i", "fas fa-paper-plane", []), Text(" Submit Inquiry")]

  /** The banner after an accepted POST: it thanks the visitor by name and
      repeats the programme, the e-mail address and the phone number. */
  function SuccessMessage(r: LeadSubmission): seq<Node>
  {
    [Text("✅ Thank you "), Strong(r.fullName), Text("!"), LineBreak, LineBreak] +
    [Text("Your inquiry for "), Strong(r.course), Text(" has been submitted successfully."), LineBreak] +
    [Text("We'll contact you at "), Strong(r.email), Text(" or "), Strong(r.phone), Text(" within 24 hours.")]
  }

  lemma SuccessMessageEmphasises(r: LeadSubmission)
    ensures Emphasised(SuccessMessage(r)) == [r.fullName, r.course, r.email, r.phone]
  {
    EmphasisedLayout("✅ Thank you ", r.fullName, "!", "Your inquiry for ", r.course,
      " has been submitted successfully.", "We'll contact you at ", r.email, " or ", r.phone, " within 24 hours.");
  }

  /** The layout of the success message with its wording left open: only the
      four `strong` runs are emphasised. */
  lemma EmphasisedLayout(greet: string, name: string, bang: string, lead: string, course: string,
                         done: string, reach: string, email: string, or: string, phone: string, close: string)
    ensures Emphasised([Text(greet), Strong(name), Text(bang), LineBreak, LineBreak] +
                       [Text(lead), Strong(course), Text(done), LineBreak] +
                       [Text(reach), Strong(email), Text(or), Strong(phone), Text(close)])
            == [name, course, email, phone]
  {
    var a := [Text(greet), Strong(name), Text(bang), LineBreak, LineBreak];
    var b := [Text(lead), Strong(course), Text(done), LineBreak];
    var c := [Text(reach), Strong(email), Text(or), Strong(phone), Text(close)];
    EmphasisedAppend(a + b, c);
    EmphasisedAppend(a, b);
    EmphasisedStrongThenTwoBreaks(greet, name, bang);
    EmphasisedStrongThenBreak(lead, course, done);
    ContactEmphasises(reach, email, or, phone, close);
  }

  /** The last line emphasises the e-mail address and the phone number. */
  lemma ContactEmphasises(reach: string, email: string, or: string, phone: string, close: string)
    ensures Emphasised([Text(reach), Strong(email), Text(or), Strong(phone), Text(close)]) == [email, phone]
  {
    TextsOfLeaf("strong", [], email);
    TextsOfLeaf("strong", [], phone);
    EmphasisedCons(Text(reach), [Strong(email), Text(or), Strong(phone), Text(close)]);
    EmphasisedCons(Strong(email), [Text(or), Strong(phone), Text(close)]);
    EmphasisedCons(Text(or), [Strong(phone), Text(close)]);
    EmphasisedCons(Strong(phone), [Text(close)]);
    EmphasisedCons(Text(close), []);
  }

  const FallbackCourses: seq<Course> := [
    Course("Liberal Arts & Sciences",
      "Comprehensive education in humanities, social sciences, and natural sciences with interdisciplinary approach.",
      "3-4 Years", "BA/BSc"),
    Course("Business Management",
      "Develop leadership skills and business acumen through case studies and industry projects.",
      "2 Years", "MBA"),
    Course("Engineering Sciences",
      "Foundation in engineering principles with specialization in emerging technologies.",
      "4 Years", "BTech"),
    Course("Medical Sciences",
      "Rigorous program in medical education with clinical training and research opportunities.",
      "5.5 Years", "MBBS"),
    Course("Law & Governance",
      "Comprehensive legal education with moot courts and internship programs.",
      "5 Years", "BA LLB"),
    Course("Architecture & Design",
      "Creative program focusing on sustainable design and architectural innovation.",
      "5 Years", "BArch")
  ]

  const FallbackFees: seq<Fee> := [
    Fee("Liberal Arts & Sciences", "₹1,50,000 - ₹2,50,000 per year",
      Some(Breakdown("₹1,20,000", "₹80,000", "₹50,000"))),
    Fee("Business Management", "₹4,50,000 - ₹6,50,000 per year",
      Some(Breakdown("₹3,80,000", "₹1,20,000", "₹1,50,000"))),
    Fee("Engineering Sciences", "₹2,50,000 - ₹4,00,000 per year",
      Some(Breakdown("₹2,00,000", "₹1,00,000", "₹1,00,000")))
  ]
}
