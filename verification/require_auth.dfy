/** The authentication middleware (backend/middlewares/requireAuth.js): a
    token is taken from the `finmen_token` cookie or from the second
    space-separated field of the Authorization header, verified, and resolved
    to a stored user; the role gates that follow admit a request by the role
    of that user. Token verification is a parameter (a partial map from
    token to user id, `None` when verification throws) and the user store is
    a map from id to document. */
module RequireAuth {
  import opened Common
  import opened UserModel

  datatype Request = Request(cookieToken: Option<string>, authorization: Option<string>)

  datatype AuthOutcome =
    | Next(user: UserDoc)
    | Reject(status: int, message: string)

  const NoToken := "Unauthorized. No token provided."
  const UserNotFound := "Unauthorized. User not found."
  const BadToken := "Invalid or expired token."

  /** `s.split(" ")[1]`: the text between the first and the second space (or
      the end), absent when `s` has no space. */
  function SecondField(s: string): (r: Option<string>)
    ensures r.None? <==> forall k :: 0 <= k < |s| ==> s[k] != ' '
    ensures r.Some? ==> forall k :: 0 <= k < |r.value| ==> r.value[k] != ' '
  {
    var i := IndexOf(s, ' ');
    if i.None? then None
    else
      var rest := s[i.value + 1..];
      var j := IndexOf(rest, ' ');
      if j.None? then Some(rest) else Some(rest[..j.value])
  }

  /** The token of a request: the cookie when it is a non-empty string,
      otherwise the header's second field when that is non-empty. */
  function ExtractToken(req: Request): (t: Option<string>)
    ensures t.Some? ==> t.value != ""
    ensures Present(req.cookieToken) ==> t == req.cookieToken
    ensures !Present(req.cookieToken) && req.authorization.None? ==> t.None?
  {
    if Present(req.cookieToken) then req.cookieToken
    else if req.authorization.None? then None
    else
      var f := SecondField(req.authorization.value);
      if Present(f) then f else None
  }

  /** A bearer header carries its token: "Bearer " followed by a non-empty
      token without spaces yields that token when there is no cookie. */
  lemma BearerHeaderToken(scheme: string, token: string)
    requires token != []
    requires forall k :: 0 <= k < |scheme| ==> scheme[k] != ' '
    requires forall k :: 0 <= k < |token| ==> token[k] != ' '
    ensures ExtractToken(Request(None, Some(scheme + " " + token))) == Some(token)
  {
    var h := scheme + " " + token;
    assert h[|scheme|] == ' ';
    var i := IndexOf(h, ' ');
    assert forall k :: 0 <= k < |scheme| ==> h[k] == scheme[k];
    assert h[i.value + 1..] == token;
  }

  /** A header without a second field gives no token. */
  lemma HeaderWithoutSecondField(h: string)
    requires forall k :: 0 <= k < |h| ==> h[k] != ' '
    ensures ExtractToken(Request(None, Some(h))) == None
  {
  }

  /** `requireAuth`: 401 without a token, 401 when the token does not verify,
      401 when its user is not stored, and otherwise the request goes on with
      that user attached, loaded without its password. */
  function Authenticate(req: Request, verify: string -> Option<string>, users: map<string, UserDoc>): (r: AuthOutcome)
    ensures r.Reject? ==> r.status == 401
    ensures r.Next? <==> ExtractToken(req).Some? && verify(ExtractToken(req).value).Some?
                         && verify(ExtractToken(req).value).value in users
    ensures r.Next? ==> r.user == users[verify(ExtractToken(req).value).value].(password := None)
    ensures r.Next? ==> r.user.password == None && r.user.role == users[verify(ExtractToken(req).value).value].role
    ensures ExtractToken(req).None? ==> r == Reject(401, NoToken)
    ensures ExtractToken(req).Some? && verify(ExtractToken(req).value).None? ==> r == Reject(401, BadToken)
    ensures (ExtractToken(req).Some? && verify(ExtractToken(req).value).Some?
             && verify(ExtractToken(req).value).value !in users) ==> r == Reject(401, UserNotFound)
  {
    var token := ExtractToken(req);
    if token.None? then Reject(401, NoToken)
    else
      var decoded := verify(token.value);
      if decoded.None? then Reject(401, BadToken)
      else if decoded.value !in users then Reject(401, UserNotFound)
      else Next(users[decoded.value].(password := None))
  }

  // ------------------------------------------------------------ role gates

  datatype Gate =
    | AdminOnly | StudentOnly | ParentOnly | SellerOnly | CsrOnly
    | SchoolAdminOnly | SchoolTeacherOnly | SchoolUsers

  datatype GateOutcome = Pass | Deny(status: int, message: string)

  /** The roles a gate lets through. */
  function Admitted(g: Gate): (rs: set<Role>)
    ensures g != SchoolUsers ==> |rs| == 1
  {
    match g
    case AdminOnly => {Admin}
    case StudentOnly => {Student}
    case ParentOnly => {Parent}
    case SellerOnly => {Seller}
    case CsrOnly => {Csr}
    case SchoolAdminOnly => {SchoolAdmin}
    case SchoolTeacherOnly => {SchoolTeacher}
    case SchoolUsers => {SchoolAdmin, SchoolTeacher, SchoolStudent, SchoolParent, SchoolAccountant, SchoolLibrarian}
  }

  function DenialMessage(g: Gate): string
  {
    match g
    case AdminOnly => "Access denied. Admins only."
    case StudentOnly => "Access denied. Students only."
    case ParentOnly => "Access denied. Parents only."
    case SellerOnly => "Access denied. Sellers only."
    case CsrOnly => "Access denied. CSR users only."
    case SchoolAdminOnly => "Access denied. School admins only."
    case SchoolTeacherOnly => "Access denied. School teachers only."
    case SchoolUsers => "Access denied. School users only."
  }

  /** A gate on the request's user (`None` when no user is attached): it
      passes exactly the admitted roles and otherwise answers 403. */
  function Check(g: Gate, user: Option<UserDoc>): (r: GateOutcome)
    ensures r == Pass <==> user.Some? && user.value.role in Admitted(g)
    ensures r != Pass ==> r == Deny(403, DenialMessage(g))
  {
    if user.Some? && user.value.role in Admitted(g) then Pass
    else Deny(403, DenialMessage(g))
  }

  /** Two roles with the same stored name are the same role. */
  lemma RoleNamesDiffer(a: Role, b: Role)
    ensures RoleName(a) == RoleName(b) ==> a == b
  {
    ParseRoleName(a);
    ParseRoleName(b);
  }

  /** A gate admitting one role passes exactly the users stored under that
      role's name. */
  lemma GateByName(g: Gate, r: Role, user: UserDoc)
    requires Admitted(g) == {r}
    ensures Check(g, Some(user)) == Pass <==> RoleName(user.role) == RoleName(r)
  {
    RoleNamesDiffer(user.role, r);
  }

  /** The role name a single-role gate asks for. */
  function RequiredName(g: Gate): string
    requires g != SchoolUsers
  {
    match g
    case AdminOnly => "admin"
    case StudentOnly => "student"
    case ParentOnly => "parent"
    case SellerOnly => "seller"
    case CsrOnly => "csr"
    case SchoolAdminOnly => "school_admin"
    case SchoolTeacherOnly => "school_teacher"
  }

  /** A single-role gate compares the stored role name with its own. */
  lemma SingleRoleGates(user: UserDoc)
    ensures forall g :: g != SchoolUsers ==> (Check(g, Some(user)) == Pass <==> RoleName(user.role) == RequiredName(g))
  {
    forall g | g != SchoolUsers
      ensures Check(g, Some(user)) == Pass <==> RoleName(user.role) == RequiredName(g)
    {
      match g
      case AdminOnly => GateByName(g, Admin, user);
      case StudentOnly => GateByName(g, Student, user);
      case ParentOnly => GateByName(g, Parent, user);
      case SellerOnly => GateByName(g, Seller, user);
      case CsrOnly => GateByName(g, Csr, user);
      case SchoolAdminOnly => GateByName(g, SchoolAdmin, user);
      case SchoolTeacherOnly => GateByName(g, SchoolTeacher, user);
    }
  }

  /** No gate lets a request through without a user. */
  lemma AbsentUserDenied(g: Gate)
    ensures Check(g, None).Deny? && Check(g, None).status == 403
  {
  }

  /** The school gate admits exactly the school roles other than transport
      staff, although the user schema accepts that role. */
  lemma SchoolGateExcludesTransportStaff(user: UserDoc)
    ensures Check(SchoolUsers, Some(user)) == Pass <==>
      |RoleName(user.role)| > 7 && RoleName(user.role)[..7] == "school_" && user.role != SchoolTransportStaff
    ensures ParseRole(Some("school_transport_staff")) == Some(SchoolTransportStaff)
  {
    var n := RoleName(user.role);
    match user.role
    case Student => assert n[..7] != "school_" || |n| <= 7;
    case Admin =>
    case Parent =>
    case Seller => assert n[0] != 's' || n[1] != 'c';
    case Csr =>
    case _ =>
  }

  /** Authentication followed by a gate: a request passes both exactly when
      its token verifies to a stored user whose role the gate admits. */
  function Guarded(g: Gate, req: Request, verify: string -> Option<string>, users: map<string, UserDoc>): (r: GateOutcome)
    ensures r == Pass <==> (exists id :: id in users && users[id].role in Admitted(g)
                                         && ExtractToken(req).Some? && verify(ExtractToken(req).value) == Some(id))
  {
    var a := Authenticate(req, verify, users);
    if a.Reject? then Deny(a.status, a.message)
    else
      var id := verify(ExtractToken(req).value).value;
      assert users[id].role == a.user.role;
      Check(g, Some(a.user))
  }
}
