/** The records shared by the hostel views: users and their roles, complaints,
    leave requests and medical requests. Timestamps are milliseconds as plain
    integers; optional fields are `Option`s. */
module HostelTypes {
  import opened JsRuntime

  datatype UserRole = Student | Warden | Admin | Security

  /** The string value each role carries at run time. */
  function RoleName(role: UserRole): (r: string)
    ensures |r| >= 1
    ensures forall i :: 0 <= i < |r| ==> IsUpperAscii(r[i])
  {
    match role
    case Student => "STUDENT"
    case Warden => "WARDEN"
    case Admin => "ADMIN"
    case Security => "SECURITY"
  }

  datatype User = User(
    id: string,
    name: string,
    email: string,
    role: UserRole,
    room: Option<string>,
    idNumber: string)

  datatype ComplaintStatus = Pending | InProgress | Resolved | Rejected

  /** The status of a leave request and of a medical request. */
  datatype RequestStatus = Pending | Approved | Rejected

  /** The priority union the record type declares; the stored field is a plain
      string because the complaint handler casts whatever the analysis returned. */
  predicate IsDeclaredPriority(p: string) {
    p == "LOW" || p == "MEDIUM" || p == "HIGH"
  }

  datatype Complaint = Complaint(
    id: string,
    studentId: string,
    studentName: string,
    title: string,
    description: string,
    imageUrl: Option<string>,
    status: ComplaintStatus,
    priority: string,
    category: string,
    createdAt: int,
    aiAnalysis: Option<string>)

  datatype LeaveRequest = LeaveRequest(
    id: string,
    studentId: string,
    studentName: string,
    room: string,
    startDate: string,
    endDate: string,
    reason: string,
    status: RequestStatus,
    createdAt: int,
    otp: Option<string>)

  datatype MedicalRequest = MedicalRequest(
    id: string,
    studentId: string,
    studentName: string,
    medicineName: string,
    reason: string,
    status: RequestStatus,
    createdAt: int)
}
