/** Acceptance rules of the mock sign-up and login forms (app.js:79-133).
    Form values are strings; JavaScript treats the empty string as false. */
module Auth {
  import opened Wrappers

  /** The `currentUser` record a successful form submission creates
      (its timestamp is not modelled). */
  datatype User = User(username: string, email: Option<string>, role: string, age: Option<string>)

  /** Which error message a rejected form shows. */
  datatype FormError = MissingFields | MissingAge

  /** The sign-up handler's decision (app.js:89-107). */
  function Signup(username: string, email: string, password: string, role: string, age: string): (r: Result<User, FormError>)
    ensures r.Ok? <==> username != "" && email != "" && password != "" && role != "" && (role != "patient" || age != "")
    ensures r.Err? && r.error == MissingAge <==>
              username != "" && email != "" && password != "" && role == "patient" && age == ""
    ensures r.Ok? ==> r.value == User(username, Some(email), role, Some(age))
  {
    if username != "" && email != "" && password != "" && role != "" then
      if role == "patient" && age == "" then Err(MissingAge)
      else Ok(User(username, Some(email), role, Some(age)))
    else
      Err(MissingFields)
  }

  /** The login handler's decision (app.js:121-132). */
  function Login(username: string, password: string, role: string): (r: Result<User, FormError>)
    ensures r.Ok? <==> username != "" && password != "" && role != ""
    ensures r.Err? ==> r.error == MissingFields
    ensures r.Ok? ==> r.value == User(username, None, role, None)
  {
    if username != "" && password != "" && role != "" then Ok(User(username, None, role, None))
    else Err(MissingFields)
  }

  /** Whatever sign-up accepts, login accepts with the same credentials. */
  lemma SignupImpliesLogin(username: string, email: string, password: string, role: string, age: string)
    requires Signup(username, email, password, role, age).Ok?
    ensures Login(username, password, role).Ok?
    ensures Login(username, password, role).value.username == Signup(username, email, password, role, age).value.username
  {
  }

  /** A therapist (any role other than "patient") never needs an age. */
  lemma AgeOnlyForPatients(username: string, email: string, password: string, role: string, age1: string, age2: string)
    requires role != "patient"
    ensures Signup(username, email, password, role, age1).Ok? <==> Signup(username, email, password, role, age2).Ok?
  {
  }
}
