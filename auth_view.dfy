/** The sign-in screen: the colour badge of each role and the mock user record
    built when the form is submitted. The random parts of that record (the id
    string and the number behind the id number) are parameters. */
module AuthView {
  import opened JsRuntime
  import opened HostelTypes

  /** The sign-in form's fields (the password is read by nothing). */
  datatype SignInForm = SignInForm(name: string, email: string, role: UserRole)

  /** The accent colour of a role, a `#RRGGBB` hex colour. */
  function RoleColor(role: UserRole): (color: string)
    ensures |color| == 7 && color[0] == '#'
    ensures forall i :: 1 <= i < 7 ==> IsHexDigit(color[i])
  {
    match role
    case Student => "#00D4FF"
    case Warden => "#BB86FC"
    case Admin => "#03DAC6"
    case Security => "#CF6679"
  }

  /** No two roles share a colour. */
  lemma RoleColorInjective(a: UserRole, b: UserRole)
    ensures RoleColor(a) == RoleColor(b) <==> a == b
  {
  }

  /** The name used when the form's name field is empty: a fixed name for a
      student, otherwise the role's name with only its first letter in capitals. */
  function DefaultName(role: UserRole): (name: string)
    ensures name != []
    ensures role == Student <==> name == "Vissampalli Karthik"
    ensures role != Student ==> |name| == |RoleName(role)| && name[0] == RoleName(role)[0]
  {
    if role == Student then "Vissampalli Karthik"
    else
      var n := RoleName(role);
      [n[0]] + ToLower(n[1..])
  }

  /** For a role other than student the default name is the role's name
      capitalised: same first letter, then lower-case letters that upper-case
      back to the rest of the role's name. */
  lemma DefaultNameCapitalised(role: UserRole)
    requires role != Student
    ensures var d := DefaultName(role);
      && |d| == |RoleName(role)|
      && d[0] == RoleName(role)[0]
      && (forall i :: 1 <= i < |d| ==> IsLowerAscii(d[i]))
      && ToUpper(d) == RoleName(role)
  {
  }

  /** The mock user the form submits: the entered name when there is one, else
      the role's default name; the email and role as entered; an id number made
      of "HX" and the decimal form of `roll`; a room only for a student.
      `id` stands for the random base-36 string and `roll` for
      `Math.floor(Math.random() * 100000)`. */
  function MockUser(form: SignInForm, id: string, roll: nat): (u: User)
    requires roll < 100000
    ensures u.id == id && u.email == form.email && u.role == form.role
    ensures form.name != "" ==> u.name == form.name
    ensures form.name == "" ==> u.name == DefaultName(form.role)
    ensures form.name == "" && form.role == Student ==> u.name == "Vissampalli Karthik"
    ensures u.room.Some? <==> form.role == Student
    ensures u.room.Some? ==> u.room.value == "402-B"
    ensures |u.idNumber| >= 3 && u.idNumber[..2] == "HX"
  {
    User(
      id,
      if form.name != "" then form.name else DefaultName(form.role),
      form.email,
      form.role,
      if form.role == Student then Some("402-B") else None,
      "HX" + NatToString(roll))
  }

  /** The id number carries `roll` back: after "HX" come between one and five
      decimal digits, without a leading zero, whose value is `roll`. */
  lemma IdNumberEncodesRoll(form: SignInForm, id: string, roll: nat)
    requires roll < 100000
    ensures var n := MockUser(form, id, roll).idNumber;
      && 3 <= |n| <= 7
      && n[..2] == "HX"
      && AllDigits(n[2..])
      && (n[2] == '0' ==> n == "HX0")
      && DecimalValue(n[2..]) == roll
  {
    var n := MockUser(form, id, roll).idNumber;
    assert n[2..] == NatToString(roll);
    DecimalRoundTrip(roll);
    assert Power10(5) == 100000;
    NatToStringLength(roll, 5);
  }

  /** The entered name is used verbatim whenever it is non-empty, and every user
      the form builds has a non-empty name. */
  lemma MockUserNamed(form: SignInForm, id: string, roll: nat)
    requires roll < 100000
    ensures MockUser(form, id, roll).name != ""
    ensures form.name != "" ==> MockUser(form, id, roll).name == form.name
  {
  }
}
