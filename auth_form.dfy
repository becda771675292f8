/** The sign-in / sign-up page (src/pages/authpage.jsx): form state, the payload it submits,
    and where it navigates afterwards. */
module AuthForm {
  import opened Wrappers
  import opened Records
  import AuthContext
  import App

  /** The role toggle; the page only ever sets these two. */
  datatype FormRole = Student | Educator

  function RoleName(role: FormRole): (name: string)
    ensures name == "student" || name == "educator"
  {
    match role
    case Student => "student"
    case Educator => "educator"
  }

  /** The inputs of the form, by their `name` attribute. */
  datatype Field = FullName | Email | Password | Grade

  datatype FormData = FormData(fullName: string, email: string, password: string, grade: string)

  const InitialForm: FormData := FormData("", "", "", "1st")

  function Get(form: FormData, field: Field): (value: string)
  {
    match field
    case FullName => form.fullName
    case Email => form.email
    case Password => form.password
    case Grade => form.grade
  }

  /** `{ ...formData, [name]: value }`: only the named field changes. */
  function Changed(form: FormData, field: Field, value: string): (r: FormData)
    ensures Get(r, field) == value
    ensures forall other :: other != field ==> Get(r, other) == Get(form, other)
  {
    match field
    case FullName => form.(fullName := value)
    case Email => form.(email := value)
    case Password => form.(password := value)
    case Grade => form.(grade := value)
  }

  /** What `handleSubmit` passes to `login` or `register`. */
  datatype Submission =
    | SignIn(email: string, password: string, role: string)
    | SignUp(name: string, email: string, password: string, role: string, grade: Option<string>)

  /** The payload for the current mode and role. */
  function Payload(isLogin: bool, role: FormRole, form: FormData): (s: Submission)
    ensures s.SignIn? <==> isLogin
    ensures s.email == form.email && s.password == form.password && s.role == RoleName(role)
    ensures s.SignUp? ==> s.name == form.fullName
    ensures s.SignUp? ==> (s.grade.Some? <==> role == Student)
    ensures s.SignUp? && s.grade.Some? ==> s.grade.value == form.grade
  {
    if isLogin then SignIn(form.email, form.password, RoleName(role))
    else SignUp(form.fullName, form.email, form.password, RoleName(role),
                if role == Student then Some(form.grade) else None)
  }

  /** Where a successful submission navigates. */
  function Destination(role: FormRole): (path: string)
    ensures path == "/dashboard/teacher" <==> role == Educator
    ensures path == "/dashboard/student" <==> role == Student
  {
    assert "/dashboard/teacher"[11] != "/dashboard/student"[11];
    match role
    case Educator => "/dashboard/teacher"
    case Student => "/dashboard/student"
  }

  /** The dashboard a user is sent to after signing in with role `role` is one the route
      guard admits for a user of that role. */
  lemma DestinationAdmitted(role: FormRole, u: User)
    requires u.role == RoleName(role)
    ensures App.Visit(Destination(role), Some(u)) == App.Render(App.Dashboard)
  {
    match role
    case Student => App.StudentDashboard(Some(u));
    case Educator => App.TeacherDashboard(Some(u));
  }

  /** A user whose role is neither of the two is admitted by neither dashboard. */
  lemma DestinationNeedsMatchingRole(role: FormRole, u: User)
    requires u.role != "student" && u.role != "educator"
    ensures App.Visit(Destination(role), Some(u)) == App.NavigateTo("/")
  {
    match role
    case Student => App.StudentDashboard(Some(u));
    case Educator => App.TeacherDashboard(Some(u));
  }

  const ConnectionFailed: string := "Connection failed. Please try again."

  /** Navigation after success, or the alert shown after failure. */
  datatype SubmitOutcome = Navigated(to: string) | Alerted(text: string)

  class AuthPage {
    var role: FormRole
    var isLogin: bool
    var isLoading: bool
    var form: FormData
    const auth: AuthContext.AuthProvider

    /** The page as first rendered: student, sign-up mode, grade "1st". */
    constructor (auth: AuthContext.AuthProvider)
      ensures this.auth == auth
      ensures role == Student && !isLogin && !isLoading && form == InitialForm
    {
      this.auth := auth;
      role := Student;
      isLogin := false;
      isLoading := false;
      form := InitialForm;
    }

    /** The student / educator toggle buttons. */
    method SelectRole(r: FormRole)
      modifies this`role
      ensures role == r
    {
      role := r;
    }

    /** The "Sign up" / "Log in" link; toggling twice restores the mode. */
    method ToggleMode()
      modifies this`isLogin
      ensures isLogin == !old(isLogin)
    {
      isLogin := !isLogin;
    }

    /** `handleChange` for the input named `field`. */
    method HandleChange(field: Field, value: string)
      modifies this`form
      ensures form == Changed(old(form), field, value)
    {
      form := Changed(form, field, value);
    }

    /** `handleSubmit` with `response` the outcome of the auth request. `loadingDuringCall` is
        the page's busy flag while the request is outstanding. */
    method HandleSubmit(response: Result<AuthContext.AuthData, HttpError>)
      returns (sent: AuthContext.Request, outcome: SubmitOutcome, ghost loadingDuringCall: bool)
      modifies this`isLoading, auth`user, auth`loading, auth.storage
      ensures loadingDuringCall && !isLoading
      ensures var p := Payload(isLogin, role, form);
              sent == if p.SignIn? then AuthContext.Post("/auth/" + p.role + "/login", AuthContext.SignInBody(p.email, p.password))
                      else AuthContext.Post("/auth/" + p.role + "/register", AuthContext.SignUpBody(p.name, p.email, p.password, p.grade))
      ensures response.Ok? ==> outcome == Navigated(Destination(role))
      ensures response.Err? ==> outcome == Alerted("Error: " + OrElse(response.error.message, ConnectionFailed))
      ensures response.Ok? ==>
                auth.user == response.value.user &&
                auth.storage.items == AuthContext.PersistedStore(old(auth.storage.items), response.value.user, response.value.token)
      ensures response.Err? ==> auth.user == old(auth.user) && auth.storage.items == old(auth.storage.items)
      ensures !auth.loading
    {
      isLoading := true;
      loadingDuringCall := isLoading;
      var result: Result<Option<User>, HttpError>;
      ghost var authLoading: bool;
      match Payload(isLogin, role, form) {
        case SignIn(email, password, r) =>
          sent, result, authLoading := auth.Login(email, password, r, response);
        case SignUp(name, email, password, r, grade) =>
          sent, result, authLoading := auth.Register(name, email, password, r, grade, response);
      }
      match result {
        case Ok(_) => outcome := Navigated(Destination(role));
        case Err(e) => outcome := Alerted("Error: " + OrElse(e.message, ConnectionFailed));
      }
      isLoading := false;
    }
  }
}
