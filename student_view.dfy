/** The student's screens: filing a complaint, applying for leave, and the
    dashboard figures drawn from the two lists. The random record ids, the
    clock and the text-analysis service's answer are parameters. */
module StudentView {
  import opened JsRuntime
  import opened HostelTypes

  /** What the analysis service answered: any of the three fields may be missing. */
  datatype Analysis = Analysis(category: Option<string>, priority: Option<string>, note: Option<string>)

  /** The complaint form's fields as the submit handler read them. */
  datatype ComplaintDraft = ComplaintDraft(title: string, description: string, image: Option<string>)

  /** The leave form's `start`, `end` and `reason` fields. */
  datatype LeaveForm = LeaveForm(start: string, end: string, reason: string)

  /** The complaint the handler files. */
  function NewComplaint(user: User, draft: ComplaintDraft, analysis: Analysis, id: string, now: int): (c: Complaint)
    ensures c.id == id && c.createdAt == now && c.status == ComplaintStatus.Pending
    ensures c.studentId == user.id && c.studentName == user.name
    ensures c.title == draft.title && c.description == draft.description
    ensures c.aiAnalysis == analysis.note
    ensures c.imageUrl.Some? <==> draft.image.Some? && draft.image.value != ""
    ensures c.imageUrl.Some? ==> c.imageUrl == draft.image
  {
    Complaint(
      id,
      user.id,
      user.name,
      draft.title,
      draft.description,
      OrUndefined(draft.image),
      ComplaintStatus.Pending,
      OrElse(analysis.priority, "MEDIUM"),
      OrElse(analysis.category, "General"),
      now,
      analysis.note)
  }

  /** A missing (or empty) priority becomes MEDIUM and a missing category
      General; present values are kept. Either way neither field is blank, and the
      priority is one of the declared three unless the service invented another. */
  lemma NewComplaintDefaults(user: User, draft: ComplaintDraft, analysis: Analysis, id: string, now: int)
    ensures var c := NewComplaint(user, draft, analysis, id, now);
      && c.priority != "" && c.category != ""
      && (analysis.priority.None? || analysis.priority.value == "" ==> c.priority == "MEDIUM")
      && (analysis.priority.Some? && analysis.priority.value != "" ==> c.priority == analysis.priority.value)
      && (analysis.category.None? || analysis.category.value == "" ==> c.category == "General")
      && (analysis.category.Some? && analysis.category.value != "" ==> c.category == analysis.category.value)
      && (analysis.priority.None? || IsDeclaredPriority(analysis.priority.value) || analysis.priority.value == ""
          ==> IsDeclaredPriority(c.priority))
  {
  }

  /** `user.room || 'N/A'`. */
  function RoomOrDefault(user: User): (room: string)
    ensures user.room.Some? && user.room.value != "" ==> room == user.room.value
    ensures user.room.None? || user.room.value == "" ==> room == "N/A"
  {
    OrElse(user.room, "N/A")
  }

  /** The leave request the handler files: pending, without a code, for the
      signed-in student; the dates are taken as typed, in any order. */
  function NewLeave(user: User, form: LeaveForm, id: string, now: int): (l: LeaveRequest)
    ensures l.id == id && l.createdAt == now
    ensures l.status == RequestStatus.Pending && l.otp.None?
    ensures l.studentId == user.id && l.studentName == user.name && l.room == RoomOrDefault(user)
    ensures l.startDate == form.start && l.endDate == form.end && l.reason == form.reason
  {
    LeaveRequest(id, user.id, user.name, RoomOrDefault(user), form.start, form.end, form.reason,
      RequestStatus.Pending, now, None)
  }

  // ---------------------------------------------------------------------------
  // dashboard figures

  predicate IsApproved(l: LeaveRequest) {
    l.status == RequestStatus.Approved
  }

  predicate IsOpen(c: Complaint) {
    c.status != ComplaintStatus.Resolved
  }

  /** The "Approved Passes" figure. */
  function ApprovedPassCount(leaves: seq<LeaveRequest>): (n: nat)
    ensures n <= |leaves|
  {
    |Filter(leaves, IsApproved)|
  }

  /** The "Issues" figure: complaints not yet resolved. */
  function OpenIssueCount(complaints: seq<Complaint>): (n: nat)
    ensures n <= |complaints|
  {
    |Filter(complaints, IsOpen)|
  }

  /** The approved-pass figure counts every approved leave as often as it
      occurs and nothing else, and is zero exactly when no leave is approved. */
  lemma ApprovedPassCountExact(leaves: seq<LeaveRequest>, l: LeaveRequest)
    ensures multiset(Filter(leaves, IsApproved))[l] == if IsApproved(l) then multiset(leaves)[l] else 0
    ensures ApprovedPassCount(leaves) == 0 <==> forall i :: 0 <= i < |leaves| ==> !IsApproved(leaves[i])
  {
    FilterMultiset(leaves, IsApproved, l);
    FilterEmpty(leaves, IsApproved);
  }

  /** The open-issue figure counts every complaint not resolved as often as it
      occurs and nothing else, and is zero exactly when all are resolved. */
  lemma OpenIssueCountExact(complaints: seq<Complaint>, c: Complaint)
    ensures multiset(Filter(complaints, IsOpen))[c] == if IsOpen(c) then multiset(complaints)[c] else 0
    ensures OpenIssueCount(complaints) == 0 <==> forall i :: 0 <= i < |complaints| ==> !IsOpen(complaints[i])
  {
    FilterMultiset(complaints, IsOpen, c);
    FilterEmpty(complaints, IsOpen);
  }

  /** The leave the "Gate Status" panel shows: the first approved one, if any. */
  function FirstApproved(leaves: seq<LeaveRequest>): (first: Option<LeaveRequest>)
    ensures first.Some? ==> first.value in leaves && IsApproved(first.value)
  {
    var approved := Filter(leaves, IsApproved);
    if approved == [] then None
    else
      FilterMultiset(leaves, IsApproved, approved[0]);
      Some(approved[0])
  }

  /** `l.otp || '000000'`. */
  function DisplayedOtp(l: LeaveRequest): (code: string)
    ensures l.otp.Some? && l.otp.value != "" ==> code == l.otp.value
    ensures l.otp.None? || l.otp.value == "" ==> code == "000000"
  {
    OrElse(l.otp, "000000")
  }

  /** What the "Gate Status" panel shows: a code, or nothing ("No approved leave found"). */
  function GatePanel(leaves: seq<LeaveRequest>): (code: Option<string>)
    ensures code.Some? <==> exists i :: 0 <= i < |leaves| && IsApproved(leaves[i])
    ensures code.Some? ==> code.value != ""
  {
    FilterEmpty(leaves, IsApproved);
    match FirstApproved(leaves)
    case Some(l) => Some(DisplayedOtp(l))
    case None => None
  }

  /** The panel shows the leave at the first approved position. */
  lemma FirstApprovedIsFirst(leaves: seq<LeaveRequest>, k: nat)
    requires k < |leaves| && IsApproved(leaves[k])
    requires forall j :: 0 <= j < k ==> !IsApproved(leaves[j])
    ensures FirstApproved(leaves) == Some(leaves[k])
    ensures GatePanel(leaves) == Some(DisplayedOtp(leaves[k]))
  {
    FilterHead(leaves, IsApproved, k);
  }

  /** The panel shows nothing exactly when the approved figure is zero. */
  lemma GatePanelEmptyIffNoApproved(leaves: seq<LeaveRequest>)
    ensures GatePanel(leaves).None? <==> ApprovedPassCount(leaves) == 0
  {
  }

  /** Filing a complaint raises the open-issue figure by one and keeps the
      earlier complaints in order behind the new one. */
  lemma FilingOpensOneIssue(complaints: seq<Complaint>, c: Complaint)
    requires c.status == ComplaintStatus.Pending
    ensures OpenIssueCount([c] + complaints) == OpenIssueCount(complaints) + 1
    ensures ([c] + complaints)[1..] == complaints
  {
  }

  /** Applying for leave leaves the approved figure and the gate panel as they were. */
  lemma ApplyingKeepsGate(leaves: seq<LeaveRequest>, l: LeaveRequest)
    requires l.status == RequestStatus.Pending
    ensures ApprovedPassCount([l] + leaves) == ApprovedPassCount(leaves)
    ensures FirstApproved([l] + leaves) == FirstApproved(leaves)
    ensures GatePanel([l] + leaves) == GatePanel(leaves)
  {
  }

  // ---------------------------------------------------------------------------
  // the records shown before anything is filed

  function SeedComplaints(user: User, now: int): (cs: seq<Complaint>)
    ensures |cs| == 2
    ensures forall i :: 0 <= i < |cs| ==>
      cs[i].studentId == user.id && cs[i].studentName == user.name && cs[i].createdAt < now
  {
    [ Complaint("c1", user.id, user.name, "Water Leakage in Bathroom",
        "There is a persistent leak in the faucet of the common bathroom on the 4th floor.",
        None, ComplaintStatus.Resolved, "MEDIUM", "Plumbing", now - 172800000,
        Some("Leak detected. Plumbing team dispatched.")),
      Complaint("c2", user.id, user.name, "Internet Latency Issues",
        "WiFi signal is extremely weak in the far corner of Block B during peak hours.",
        None, ComplaintStatus.InProgress, "LOW", "IT/Network", now - 86400000,
        Some("Peak hour congestion identified. Investigating router placement.")) ]
  }

  function SeedLeaves(user: User, now: int): (ls: seq<LeaveRequest>)
    ensures |ls| == 2
    ensures forall i :: 0 <= i < |ls| ==>
      ls[i].studentId == user.id && ls[i].studentName == user.name
      && ls[i].room == RoomOrDefault(user) && ls[i].createdAt <= now
    ensures forall i :: 0 <= i < |ls| ==> (IsApproved(ls[i]) <==> ls[i].otp.Some?)
  {
    [ LeaveRequest("l1", user.id, user.name, RoomOrDefault(user), "2025-04-12", "2025-04-15",
        "Home visit for festival", RequestStatus.Approved, now - 432000000, Some("742910")),
      LeaveRequest("l2", user.id, user.name, RoomOrDefault(user), "2025-05-20", "2025-05-22",
        "Medical checkup", RequestStatus.Pending, now, None) ]
  }

  /** Before anything is filed: one approved pass whose code is 742910, and one
      open issue. */
  lemma SeedFigures(user: User, now: int)
    ensures ApprovedPassCount(SeedLeaves(user, now)) == 1
    ensures OpenIssueCount(SeedComplaints(user, now)) == 1
    ensures GatePanel(SeedLeaves(user, now)) == Some("742910")
  {
    var ls := SeedLeaves(user, now);
    assert ls[1..][1..] == [];
    assert Filter(ls[1..], IsApproved) == [];
    assert Filter(ls, IsApproved) == [ls[0]];
    FirstApprovedIsFirst(ls, 0);
    var cs := SeedComplaints(user, now);
    assert cs[1..][1..] == [];
    assert Filter(cs[1..], IsOpen) == [cs[1]];
    assert Filter(cs, IsOpen) == [cs[1]];
  }

  // ---------------------------------------------------------------------------
  // the mess rating card

  /** The "Rating" card: `messRating.toFixed(1)` once a meal has been rated,
      the placeholder 4.2 before. Its whole part is the rating (4 before any)
      in decimal without a leading zero, followed by one decimal place. */
  function RatingCard(rating: nat): (shown: string)
    ensures |shown| >= 3 && shown[|shown| - 2] == '.'
    ensures shown[0] != '0'
    ensures AllDigits(shown[..|shown| - 2]) && AllDigits(shown[|shown| - 1..])
    ensures DecimalValue(shown[..|shown| - 2]) == if rating == 0 then 4 else rating
    ensures shown[|shown| - 1] == if rating == 0 then '2' else '0'
  {
    if rating == 0 then "4.2"
    else
      DecimalRoundTrip(rating);
      var whole := NatToString(rating);
      assert (whole + ".0")[..|whole|] == whole;
      whole + ".0"
  }

  // ---------------------------------------------------------------------------
  // the view's state

  class StudentDesk {
    const user: User
    var complaints: seq<Complaint>
    var leaves: seq<LeaveRequest>
    var isSubmitting: bool
    var showComplaintModal: bool
    var showLeaveModal: bool
    var compTitle: string
    var compDesc: string
    var compImg: Option<string>
    var messRating: nat

    constructor (user: User, now: int)
      ensures this.user == user
      ensures complaints == SeedComplaints(user, now) && leaves == SeedLeaves(user, now)
      ensures !isSubmitting && !showComplaintModal && !showLeaveModal
      ensures compTitle == "" && compDesc == "" && compImg.None?
      ensures messRating == 0 && RatingCard(messRating) == "4.2"
    {
      this.user := user;
      complaints := SeedComplaints(user, now);
      leaves := SeedLeaves(user, now);
      isSubmitting := false;
      showComplaintModal := false;
      showLeaveModal := false;
      compTitle := "";
      compDesc := "";
      compImg := None;
      messRating := 0;
    }

    /** The "Report Issue" and "File New Report" buttons. */
    method OpenComplaintForm()
      modifies this`showComplaintModal
      ensures showComplaintModal
    {
      showComplaintModal := true;
    }

    /** The "Gate Pass" and "Request Leave" buttons. */
    method OpenLeaveForm()
      modifies this`showLeaveModal
      ensures showLeaveModal
    {
      showLeaveModal := true;
    }

    /** The complaint form's title and description inputs. */
    method EditComplaint(title: string, description: string)
      modifies this`compTitle, this`compDesc
      ensures compTitle == title && compDesc == description
    {
      compTitle := title;
      compDesc := description;
    }

    /** The file reader's result for the evidence upload, a data URL. */
    method AttachImage(dataUrl: string)
      modifies this`compImg
      ensures compImg == Some(dataUrl)
    {
      compImg := Some(dataUrl);
    }

    /** The complaint form's submit, up to the `await`. The submit button is
        disabled while a submission is under way, so none is. The submitting
        flag is raised; the handler's closure holds the form and the complaint
        list as they stand, and both are returned. */
    method BeginFileComplaint() returns (draft: ComplaintDraft, captured: seq<Complaint>)
      requires !isSubmitting
      modifies this`isSubmitting
      ensures isSubmitting
      ensures draft == ComplaintDraft(compTitle, compDesc, compImg)
      ensures captured == complaints
    {
      isSubmitting := true;
      draft := ComplaintDraft(compTitle, compDesc, compImg);
      captured := complaints;
    }

    /** The rest of the submit, once the analysis has answered: exactly one
        pending complaint is put in front of the list the closure captured,
        whose order is kept; the open-issue figure rises by one over it; the
        form is cleared and closed. */
    method CompleteFileComplaint(draft: ComplaintDraft, captured: seq<Complaint>,
                                 analysis: Analysis, id: string, now: int)
      modifies this`complaints, this`isSubmitting, this`showComplaintModal
      modifies this`compTitle, this`compDesc, this`compImg
      ensures complaints == [NewComplaint(user, draft, analysis, id, now)] + captured
      ensures OpenIssueCount(complaints) == OpenIssueCount(captured) + 1
      ensures !isSubmitting && !showComplaintModal
      ensures compTitle == "" && compDesc == "" && compImg.None?
    {
      var c := NewComplaint(user, draft, analysis, id, now);
      FilingOpensOneIssue(captured, c);
      complaints := [c] + captured;
      isSubmitting := false;
      showComplaintModal := false;
      compTitle := "";
      compDesc := "";
      compImg := None;
    }

    /** One of the five star buttons of the meal rating: the rating becomes the
        star's number and the card shows it with one decimal place. */
    method RateMeal(star: nat)
      requires 1 <= star <= 5
      modifies this`messRating
      ensures messRating == star
      ensures RatingCard(messRating) == [DigitChar(star)] + ".0"
    {
      messRating := star;
      assert NatToString(star) == [DigitChar(star)];
    }

    /** The leave form's submit: exactly one pending request is put in front of
        the existing ones; the approved figure and the gate panel do not change;
        the form is closed. */
    method ApplyLeave(form: LeaveForm, id: string, now: int)
      modifies this`leaves, this`showLeaveModal
      ensures leaves == [NewLeave(user, form, id, now)] + old(leaves)
      ensures ApprovedPassCount(leaves) == ApprovedPassCount(old(leaves))
      ensures GatePanel(leaves) == GatePanel(old(leaves))
      ensures !showLeaveModal
    {
      var l := NewLeave(user, form, id, now);
      ApplyingKeepsGate(leaves, l);
      leaves := [l] + leaves;
      showLeaveModal := false;
    }
  }
}
