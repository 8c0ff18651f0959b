/** The user schema of the service (backend/models/User.js): the role
    enumeration, the fields that are required only for some roles, the
    child-email pattern, the role-dependent defaults of `isVerified` and
    `approvalStatus`, the pre-save guard on admin passwords, the two virtual
    predicates, and the training-module sub-document. A submitted document is
    a record of optional fields (`None` = the field is absent); saving either
    yields the stored document with its defaults filled in or the reasons it
    was refused. */
module UserModel {
  import opened Common

  datatype Role =
    | Student | Admin | Parent | Seller | Csr
    | SchoolAdmin | SchoolTeacher | SchoolStudent | SchoolParent
    | SchoolAccountant | SchoolLibrarian | SchoolTransportStaff

  /** The role as stored. */
  function RoleName(r: Role): string
  {
    match r
    case Student => "student"
    case Admin => "admin"
    case Parent => "parent"
    case Seller => "seller"
    case Csr => "csr"
    case SchoolAdmin => "school_admin"
    case SchoolTeacher => "school_teacher"
    case SchoolStudent => "school_student"
    case SchoolParent => "school_parent"
    case SchoolAccountant => "school_accountant"
    case SchoolLibrarian => "school_librarian"
    case SchoolTransportStaff => "school_transport_staff"
  }

  /** The enumeration, in schema order. */
  const Roles: seq<Role> := [Student, Admin, Parent, Seller, Csr,
    SchoolAdmin, SchoolTeacher, SchoolStudent, SchoolParent,
    SchoolAccountant, SchoolLibrarian, SchoolTransportStaff]

  /** A submitted role: absent means the default "student"; a string outside
      the enumeration is refused (`None`). */
  function ParseRole(s: Option<string>): (r: Option<Role>)
    ensures s.None? ==> r == Some(Student)
    ensures s.Some? && r.Some? ==> RoleName(r.value) == s.value
    ensures s.Some? && r.None? ==> forall x: Role :: RoleName(x) != s.value
  {
    match s
    case None => Some(Student)
    case Some(name) =>
      if name == "student" then Some(Student)
      else if name == "admin" then Some(Admin)
      else if name == "parent" then Some(Parent)
      else if name == "seller" then Some(Seller)
      else if name == "csr" then Some(Csr)
      else if name == "school_admin" then Some(SchoolAdmin)
      else if name == "school_teacher" then Some(SchoolTeacher)
      else if name == "school_student" then Some(SchoolStudent)
      else if name == "school_parent" then Some(SchoolParent)
      else if name == "school_accountant" then Some(SchoolAccountant)
      else if name == "school_librarian" then Some(SchoolLibrarian)
      else if name == "school_transport_staff" then Some(SchoolTransportStaff)
      else None
  }

  /** Every role is stored under its own name and parses back to itself, so
      the enumeration has exactly twelve members. */
  lemma ParseRoleName(x: Role)
    ensures ParseRole(Some(RoleName(x))) == Some(x)
  {
  }

  datatype ShopType = Stationery | Uniforms | Food | Books | Electronics | Other

  function ShopTypeName(t: ShopType): string
  {
    match t
    case Stationery => "Stationery"
    case Uniforms => "Uniforms"
    case Food => "Food"
    case Books => "Books"
    case Electronics => "Electronics"
    case Other => "Other"
  }

  /** A shop type string, if it is one of the six enumerated values. */
  function ParseShopType(s: string): (r: Option<ShopType>)
    ensures r.Some? ==> ShopTypeName(r.value) == s
    ensures r.None? ==> forall t: ShopType :: ShopTypeName(t) != s
  {
    if s == "Stationery" then Some(Stationery)
    else if s == "Uniforms" then Some(Uniforms)
    else if s == "Food" then Some(Food)
    else if s == "Books" then Some(Books)
    else if s == "Electronics" then Some(Electronics)
    else if s == "Other" then Some(Other)
    else None
  }

  // ------------------------------------------------------------ child email

  /** A character the pattern `[^\s@]` accepts. */
  predicate Plain(c: char)
  {
    !IsWhitespace(c) && c != '@'
  }

  /** The pattern `^[^\s@]+@[^\s@]+\.[^\s@]+$` read directly: a non-empty
      local part, an '@', a non-empty domain part, a '.', and a non-empty
      tail, every character other than the '@' being plain. */
  ghost predicate MatchesEmailPattern(s: string)
  {
    exists i, j :: 0 < i && i + 1 < j && j + 1 < |s| && s[i] == '@' && s[j] == '.'
      && (forall k :: 0 <= k < |s| && k != i ==> Plain(s[k]))
  }

  function IndexOf(s: string, c: char): (r: Option<nat>)
    ensures r.Some? ==> r.value < |s| && s[r.value] == c && forall k :: 0 <= k < r.value ==> s[k] != c
    ensures r.None? ==> forall k :: 0 <= k < |s| ==> s[k] != c
  {
    if s == [] then None
    else if s[0] == c then Some(0)
    else
      var r := IndexOf(s[1..], c);
      if r.None? then None else Some(r.value + 1)
  }

  /** The first occurrence is the one IndexOf finds. */
  lemma IndexOfFirst(s: string, c: char, i: nat)
    requires i < |s| && s[i] == c
    requires forall k :: 0 <= k < i ==> s[k] != c
    ensures IndexOf(s, c) == Some(i)
  {
  }

  predicate AllPlain(s: string)
  {
    forall k :: 0 <= k < |s| ==> Plain(s[k])
  }

  /** A '.' with at least one character on each side. */
  predicate InnerDot(s: string)
  {
    exists j :: 0 < j < |s| - 1 && s[j] == '.'
  }

  /** The child-email validator, computed by splitting at the first '@'. */
  predicate ValidChildEmail(s: string)
  {
    var at := IndexOf(s, '@');
    at.Some? && at.value > 0
      && AllPlain(s[..at.value]) && AllPlain(s[at.value + 1..])
      && InnerDot(s[at.value + 1..])
  }

  /** The validator accepts exactly the strings the pattern matches. */
  lemma ValidChildEmailIffPattern(s: string)
    ensures ValidChildEmail(s) <==> MatchesEmailPattern(s)
  {
    var at := IndexOf(s, '@');
    if ValidChildEmail(s) {
      var i := at.value;
      var rest := s[i + 1..];
      var j' :| 0 < j' < |rest| - 1 && rest[j'] == '.';
      var j := i + 1 + j';
      assert s[j] == '.';
      forall k | 0 <= k < |s| && k != i ensures Plain(s[k]) {
        if k < i { assert s[k] == s[..i][k]; } else { assert s[k] == rest[k - i - 1]; }
      }
    }
    if MatchesEmailPattern(s) {
      var i, j :| 0 < i && i + 1 < j && j + 1 < |s| && s[i] == '@' && s[j] == '.'
        && (forall k :: 0 <= k < |s| && k != i ==> Plain(s[k]));
      IndexOfFirst(s, '@', i);
      var rest := s[i + 1..];
      assert rest[j - i - 1] == '.';
      assert AllPlain(s[..i]) by {
        forall k | 0 <= k < i ensures Plain(s[..i][k]) { assert s[..i][k] == s[k]; }
      }
      assert AllPlain(rest) by {
        forall k | 0 <= k < |rest| ensures Plain(rest[k]) { assert rest[k] == s[i + 1 + k]; }
      }
    }
  }

  /** A matching address holds exactly one '@' and no whitespace. */
  lemma ValidChildEmailShape(s: string)
    requires ValidChildEmail(s)
    ensures |s| >= 5
    ensures forall k :: 0 <= k < |s| ==> !IsWhitespace(s[k])
    ensures exists i :: 0 <= i < |s| && s[i] == '@' && forall k :: 0 <= k < |s| && k != i ==> s[k] != '@'
  {
    ValidChildEmailIffPattern(s);
    var i, j :| 0 < i && i + 1 < j && j + 1 < |s| && s[i] == '@' && s[j] == '.'
      && (forall k :: 0 <= k < |s| && k != i ==> Plain(s[k]));
    assert s[i] == '@';
  }

  // ---------------------------------------------------------------- saving

  /** The fields of a submitted user document that the schema's rules read. */
  datatype Submitted = Submitted(
    name: Option<string>,
    email: Option<string>,
    role: Option<string>,
    password: Option<string>,
    childEmail: Option<string>,
    businessName: Option<string>,
    shopType: Option<string>,
    organization: Option<string>,
    isVerified: Option<bool>,
    approvalStatus: Option<string>)

  datatype ApprovalStatus = Pending | Approved | Rejected

  function ParseApproval(s: string): Option<ApprovalStatus>
  {
    if s == "pending" then Some(Pending)
    else if s == "approved" then Some(Approved)
    else if s == "rejected" then Some(Rejected)
    else None
  }

  datatype Problem =
    | NameRequired
    | EmailRequired
    | InvalidRole
    | ChildEmailRequired
    | InvalidChildEmail
    | BusinessNameRequired
    | ShopTypeRequired
    | InvalidShopType
    | OrganizationRequired
    | InvalidApprovalStatus
    | AdminPasswordRequired

  /** The stored document, defaults filled in. */
  datatype UserDoc = UserDoc(
    role: Role,
    password: Option<string>,
    childEmail: Option<string>,
    businessName: Option<string>,
    shopType: Option<ShopType>,
    organization: Option<string>,
    isVerified: bool,
    approvalStatus: ApprovalStatus)

  datatype SaveResult = Saved(doc: UserDoc) | Invalid(problems: set<Problem>) | Refused(problem: Problem)

  /** A required string field is satisfied by a non-empty string. */
  predicate Present(s: Option<string>)
  {
    s.Some? && s.value != ""
  }

  /** `isVerified` when the document does not give one. */
  function DefaultIsVerified(r: Role): (b: bool)
    ensures b <==> r in {Parent, Seller, Csr, Admin}
  {
    r == Parent || r == Seller || r == Csr || r == Admin
  }

  /** `approvalStatus` when the document does not give one. */
  function DefaultApproval(r: Role): (a: ApprovalStatus)
    ensures a == Pending <==> r in {Seller, Csr}
    ensures a != Rejected
  {
    if r == Parent then Approved
    else if r == Seller || r == Csr then Pending
    else Approved
  }

  const AllProblems: set<Problem> := {NameRequired, EmailRequired, InvalidRole, ChildEmailRequired, InvalidChildEmail,
    BusinessNameRequired, ShopTypeRequired, InvalidShopType, OrganizationRequired,
    InvalidApprovalStatus, AdminPasswordRequired}

  /** Whether schema rule `p` fails, evaluated on the role the document will
      have (the default when none is given). Validators other than `required`
      run only on fields that are present, and a field whose `required` rule
      fails reports that error alone. */
  predicate Fails(u: Submitted, p: Problem)
  {
    var role := ParseRole(u.role);
    var childEmailMissing := role == Some(Parent) && !Present(u.childEmail);
    var shopTypeMissing := role == Some(Seller) && !Present(u.shopType);
    match p
    case NameRequired => !Present(u.name)
    case EmailRequired => !Present(u.email)
    case InvalidRole => role.None?
    case ChildEmailRequired => childEmailMissing
    case InvalidChildEmail => !childEmailMissing && u.childEmail.Some? && !ValidChildEmail(u.childEmail.value)
    case BusinessNameRequired => role == Some(Seller) && !Present(u.businessName)
    case ShopTypeRequired => shopTypeMissing
    case InvalidShopType => !shopTypeMissing && u.shopType.Some? && ParseShopType(u.shopType.value).None?
    case OrganizationRequired => role == Some(Csr) && !Present(u.organization)
    case InvalidApprovalStatus => u.approvalStatus.Some? && ParseApproval(u.approvalStatus.value).None?
    case AdminPasswordRequired => false
  }

  /** Schema validation: every rule that fails. */
  function Problems(u: Submitted): (ps: set<Problem>)
    ensures forall p :: p in ps <==> Fails(u, p)
  {
    set p | p in AllProblems && Fails(u, p)
  }

  /** Saving: schema validation, then the pre-save hook that refuses an
      admin without a password (an empty password counts as none), then the
      stored document with its defaults. */
  function Save(u: Submitted): (r: SaveResult)
    ensures r.Invalid? <==> Problems(u) != {}
    ensures r.Invalid? ==> r.problems == Problems(u)
    ensures r.Refused? <==> Problems(u) == {} && ParseRole(u.role) == Some(Admin) && !Present(u.password)
    ensures r.Refused? ==> r.problem == AdminPasswordRequired
    ensures r.Saved? ==> Some(r.doc.role) == ParseRole(u.role)
    ensures r.Saved? ==> r.doc.isVerified == GetOr(u.isVerified, DefaultIsVerified(r.doc.role))
    ensures r.Saved? && u.approvalStatus.None? ==> r.doc.approvalStatus == DefaultApproval(r.doc.role)
    ensures r.Saved? && u.approvalStatus.Some? ==> Some(r.doc.approvalStatus) == ParseApproval(u.approvalStatus.value)
  {
    var ps := Problems(u);
    if ps != {} then Invalid(ps)
    else
      assert InvalidRole !in ps && InvalidApprovalStatus !in ps;
      var role := ParseRole(u.role).value;
      if role == Admin && !Present(u.password) then Refused(AdminPasswordRequired)
      else
        var shop := if u.shopType.Some? then ParseShopType(u.shopType.value) else None;
        var approval := if u.approvalStatus.Some? then ParseApproval(u.approvalStatus.value).value else DefaultApproval(role);
        Saved(UserDoc(role, u.password, u.childEmail, u.businessName, shop, u.organization,
          GetOr(u.isVerified, DefaultIsVerified(role)), approval))
  }

  /** Every stored document satisfies the role rules: a parent has a valid
      child email, a seller a business name and shop type, a csr an
      organization, and an admin a password. */
  lemma SavedDocumentsKeepRoleRules(u: Submitted)
    requires Save(u).Saved?
    ensures var d := Save(u).doc;
      && (d.role == Parent ==> Present(d.childEmail) && ValidChildEmail(d.childEmail.value))
      && (d.role == Seller ==> Present(d.businessName) && d.shopType.Some?)
      && (d.role == Csr ==> Present(d.organization))
      && (d.role == Admin ==> Present(d.password))
      && (d.childEmail.Some? ==> ValidChildEmail(d.childEmail.value))
  {
    var ps := Problems(u);
    assert ChildEmailRequired !in ps && InvalidChildEmail !in ps && BusinessNameRequired !in ps;
    assert ShopTypeRequired !in ps && InvalidShopType !in ps && OrganizationRequired !in ps;
  }

  /** The admin hook concerns admins only: a document of any other role that
      passes validation is stored. */
  lemma OnlyAdminsNeedPassword(u: Submitted)
    requires Problems(u) == {}
    requires ParseRole(u.role) != Some(Admin)
    ensures Save(u).Saved?
  {
  }

  /** A sign-up giving only a name, an email, a role and a password:
      parents, sellers and csr users are refused for their missing role
      fields; every other role is stored approved, and verified only when it
      is admin. */
  lemma MinimalSignUp(role: Role)
    ensures var r := Save(Submitted(Some("Asha"), Some("asha@school.in"), Some(RoleName(role)), Some("pw"),
                                    None, None, None, None, None, None));
      && (r.Saved? <==> role !in {Parent, Seller, Csr})
      && (r.Saved? ==> r.doc.approvalStatus == Approved && r.doc.isVerified == (role == Admin))
  {
    ParseRoleName(role);
    var u := Submitted(Some("Asha"), Some("asha@school.in"), Some(RoleName(role)), Some("pw"),
                       None, None, None, None, None, None);
    if role in {Parent, Seller, Csr} {
      assert ChildEmailRequired in Problems(u) || BusinessNameRequired in Problems(u) || OrganizationRequired in Problems(u);
    } else {
      forall p ensures !Fails(u, p) { }
      assert Problems(u) == {};
    }
  }

  /** Nothing is stored without a name and an email, an empty string
      counting as none. */
  lemma NameAndEmailRequired(u: Submitted)
    requires !Present(u.name) || !Present(u.email)
    ensures Save(u).Invalid?
    ensures !Present(u.name) ==> NameRequired in Save(u).problems
    ensures !Present(u.email) ==> EmailRequired in Save(u).problems
  {
    assert NameRequired in Problems(u) || EmailRequired in Problems(u);
  }

  /** An empty child email on a parent reports only that it is required. */
  lemma EmptyChildEmailReportedOnce(u: Submitted)
    requires ParseRole(u.role) == Some(Parent) && u.childEmail == Some("")
    ensures ChildEmailRequired in Problems(u) && InvalidChildEmail !in Problems(u)
  {
  }

  // --------------------------------------------------------------- virtuals

  /** Only students may sign in with Google. */
  function CanUseGoogleLogin(d: UserDoc): (b: bool)
    ensures b <==> d.role == Student
  {
    d.role == Student
  }

  /** A document stored without a role is a student's, so it may sign in
      with Google; one stored with any other role named may not. */
  lemma DefaultRoleUsesGoogleLogin(u: Submitted)
    requires Save(u).Saved?
    ensures u.role.None? ==> CanUseGoogleLogin(Save(u).doc)
    ensures u.role.Some? && u.role.value != "student" ==> !CanUseGoogleLogin(Save(u).doc)
  {
  }

  /** An unverified student must confirm a one-time password. */
  function NeedsOTPVerification(d: UserDoc): (b: bool)
    ensures b <==> d.role == Student && !d.isVerified
  {
    d.role == Student && !d.isVerified
  }

  /** A student who signs up without stating `isVerified` must verify by
      one-time password; a parent, seller, csr or admin need not. */
  lemma NewStudentsNeedOTP(u: Submitted)
    requires Save(u).Saved? && u.isVerified.None?
    ensures NeedsOTPVerification(Save(u).doc) <==> Save(u).doc.role == Student
  {
  }

  // --------------------------------------------------------- training modules

  datatype TrainingStatus = NotStarted | InProgress | Completed

  datatype TrainingInput = TrainingInput(moduleId: Option<string>, moduleName: Option<string>,
    status: Option<string>, progress: Option<int>)

  datatype TrainingModule = TrainingModule(moduleId: Option<string>, moduleName: Option<string>,
    status: TrainingStatus, progress: int)

  function ParseTrainingStatus(s: string): Option<TrainingStatus>
  {
    if s == "not_started" then Some(NotStarted)
    else if s == "in_progress" then Some(InProgress)
    else if s == "completed" then Some(Completed)
    else None
  }

  /** A training-module entry: status defaults to not started and progress to
      0; a status outside the enumeration or a progress outside [0, 100] is
      refused. */
  function StoreTrainingModule(t: TrainingInput): (r: Option<TrainingModule>)
    ensures r.Some? ==> 0 <= r.value.progress <= 100
    ensures r.Some? ==> r.value.progress == GetOr(t.progress, 0)
    ensures r.Some? && t.status.None? ==> r.value.status == NotStarted
    ensures r.None? <==>
      (t.progress.Some? && !(0 <= t.progress.value <= 100))
      || (t.status.Some? && ParseTrainingStatus(t.status.value).None?)
  {
    var status := if t.status.None? then Some(NotStarted) else ParseTrainingStatus(t.status.value);
    var progress := GetOr(t.progress, 0);
    if status.None? || progress < 0 || progress > 100 then None
    else Some(TrainingModule(t.moduleId, t.moduleName, status.value, progress))
  }
}
