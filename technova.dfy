/** The literals of the TechNova University page script. The file stores its
    non-ASCII characters mis-decoded (the rupee sign as "‚Çπ", the cross mark
    as "‚ùå", the party emoji as U+F8FF followed by "üéâ"); the model keeps
    the characters the file holds. */
module TechNova {

  import opened Wrappers
  import opened Html
  import opened Catalog
  import opened Lead

  /** No `type` property: the record has ten fields. */
  const Stamp: Branding := Branding("TechNova University", "website_lead", None)

  const SelectPlaceholder: string := "Choose program"

  const FeeCaptions: FeeLabels := FeeLabels("fee-range", "Tuition Fee:", "Hostel Fee:", "Other Charges:")

  const PhoneError: string := "Please enter a valid 10-digit Indian mobile number starting with 6-9."

  const ConsentError: string := "Please agree to receive information about our programs and updates."

  const SupportAddress: string := "admissions@technova.edu.in"

  const SubmitError: string :=
    "‚ùå Sorry, there was an error submitting your application. Please try again or contact our admission office directly at "
    + SupportAddress

  /** The failure banner points the visitor to the admissions mailbox. */
  lemma SubmitErrorNamesSupportAddress()
    ensures Contains(SubmitError, SupportAddress)
  {
    var k := |SubmitError| - |SupportAddress|;
    assert SubmitError[k..] == SupportAddress;
  }

  const SubmittingLabel: seq<Node> := [Classed("i", "fas fa-spinner fa-spin", []), Text(" Submitting...")]

  const SubmitLabel: seq<Node> := [Text("Submit Application")]

  /** The banner after an accepted POST: it thanks the visitor by name and
      repeats the programme and the e-mail address, but not the phone number. */
  function SuccessMessage(r: LeadSubmission): seq<Node>
  {
    [Text("\U{F8FF}üéâ Thank you "), Strong(r.fullName), Text("!"), LineBreak, LineBreak] +
    [Text("Your application for "), Strong(r.course), Text(" has been submitted successfully."), LineBreak] +
    [Text("We'll contact you at "), Strong(r.email), Text(" within 24 hours to discuss next steps.")]
  }

  lemma SuccessMessageEmphasises(r: LeadSubmission)
    ensures Emphasised(SuccessMessage(r)) == [r.fullName, r.course, r.email]
  {
    EmphasisedLayout("\U{F8FF}üéâ Thank you ", r.fullName, "!", "Your application for ", r.course,
      " has been submitted successfully.", "We'll contact you at ", r.email, " within 24 hours to discuss next steps.");
  }

  /** The layout of the success message with its wording left open: only the
      three `strong` runs are emphasised. */
  lemma EmphasisedLayout(greet: string, name: string, bang: string, lead: string, course: string,
                         done: string, reach: string, email: string, close: string)
    ensures Emphasised([Text(greet), Strong(name), Text(bang), LineBreak, LineBreak] +
                       [Text(lead), Strong(course), Text(done), LineBreak] +
                       [Text(reach), Strong(email), Text(close)])
            == [name, course, email]
  {
    var a := [Text(greet), Strong(name), Text(bang), LineBreak, LineBreak];
    var b := [Text(lead), Strong(course), Text(done), LineBreak];
    var c := [Text(reach), Strong(email), Text(close)];
    EmphasisedAppend(a + b, c);
    EmphasisedAppend(a, b);
    EmphasisedStrongThenTwoBreaks(greet, name, bang);
    EmphasisedStrongThenBreak(lead, course, done);
    EmphasisedStrongInText(reach, email, close);
  }

  /** The phone number plays no part in the message. */
  lemma SuccessMessageIgnoresPhone(r: LeadSubmission, phone: string)
    ensures SuccessMessage(r.(phone := phone)) == SuccessMessage(r)
  {
  }

  const FallbackCourses: seq<Course> := [
    Course("Artificial Intelligence & Machine Learning",
      "Comprehensive program covering AI algorithms, deep learning, and intelligent systems development.",
      "4 Years", "BTech"),
    Course("Cybersecurity & Blockchain",
      "Learn to protect digital assets and build secure decentralized applications.",
      "4 Years", "BTech"),
    Course("Data Science & Analytics",
      "Master data analysis, visualization, and predictive modeling techniques.",
      "4 Years", "BTech"),
    Course("Cloud Computing & DevOps",
      "Learn cloud infrastructure, containerization, and continuous deployment.",
      "4 Years", "BTech"),
    Course("Internet of Things",
      "Build connected devices and smart systems with embedded technology.",
      "4 Years", "BTech"),
    Course("Business Technology",
      "Bridge business strategy with technology implementation and digital transformation.",
      "2 Years", "MBA")
  ]

  const FallbackFees: seq<Fee> := [
    Fee("Artificial Intelligence & Machine Learning", "‚Çπ3,50,000 - ‚Çπ5,00,000 per year",
      Some(Breakdown("‚Çπ3,00,000", "‚Çπ1,20,000", "‚Çπ80,000"))),
    Fee("Cybersecurity & Blockchain", "‚Çπ3,00,000 - ‚Çπ4,50,000 per year",
      Some(Breakdown("‚Çπ2,60,000", "‚Çπ1,20,000", "‚Çπ70,000"))),
    Fee("Data Science & Analytics", "‚Çπ3,20,000 - ‚Çπ4,80,000 per year",
      Some(Breakdown("‚Çπ2,80,000", "‚Çπ1,20,000", "‚Çπ80,000")))
  ]
}
