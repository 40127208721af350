/** The registration form (screens/SignupScreen.js). */
module Signup {
  import opened Ui

  /** The eight text fields of the form, each held in component state. */
  datatype SignupForm = SignupForm(
    username: string,
    password: string,
    confirmPassword: string,
    name: string,
    email: string,
    number: string,
    region: string,
    gender: string)

  /** Every field starts as the empty string; for the two pickers that is
      the value of their "Select ..." placeholder item. */
  const InitialForm: SignupForm := SignupForm("", "", "", "", "", "", "", "")

  /** The regions offered by the region picker. */
  const IndoreRegions: seq<string> := [
    "Vijay Nagar", "Palasia", "Rau", "Rajendra Nagar", "Mhow",
    "Sukhlia", "Banganga", "Bhanwarkuan", "Khajrana" ]

  /** The choices offered by the gender picker. */
  const Genders: seq<string> := ["Male", "Female", "Other"]

  /** Value of a picker's placeholder item. */
  const Placeholder: string := ""

  const PasswordsDiffer: Alert := Alert("Error", "Passwords do not match!")
  const Welcome: Alert := Alert("Signup Successful", "Welcome to the app!")

  /** The route a successful registration opens. */
  const LoginRoute: string := "LoginPage"

  predicate Distinct(s: seq<string>)
  {
    forall i, j :: 0 <= i < j < |s| ==> s[i] != s[j]
  }

  /** The values a picker offers: its placeholder, then one item per choice. */
  function PickerValues(choices: seq<string>): (r: seq<string>)
    ensures |r| == |choices| + 1
    ensures r[0] == Placeholder
    ensures forall v :: v in r <==> v == Placeholder || v in choices
  {
    [Placeholder] + choices
  }

  /** `handleSignup`: the only check is that the two password fields are
      equal. A mismatch shows an error and stays; otherwise a welcome notice
      is shown and the app goes to the sign-in screen. */
  function HandleSignup(form: SignupForm): (d: Decision)
    ensures d.Stay? <==> form.password != form.confirmPassword
    ensures d.Stay? ==> d.error == PasswordsDiffer
    ensures d.Navigate? ==> d.route == LoginRoute && d.notice == Some(Welcome)
  {
    if form.password != form.confirmPassword then Stay(PasswordsDiffer)
    else Navigate(Some(Welcome), LoginRoute)
  }

  /** No field other than the two passwords affects the outcome. */
  lemma OnlyPasswordsChecked(f: SignupForm, g: SignupForm)
    requires f.password == g.password && f.confirmPassword == g.confirmPassword
    ensures HandleSignup(f) == HandleSignup(g)
  {
  }

  /** Submitting the untouched form succeeds: two empty passwords are equal. */
  lemma EmptyFormSignsUp()
    ensures HandleSignup(InitialForm) == Navigate(Some(Welcome), LoginRoute)
  {
  }

  /** Nine regions and three genders, each offered once (the pickers key
      their items by value), and the "nothing selected" default is none of
      them. */
  lemma PickerChoices()
    ensures |IndoreRegions| == 9 && Distinct(IndoreRegions)
    ensures |Genders| == 3 && Distinct(Genders)
    ensures Placeholder !in IndoreRegions && Placeholder !in Genders
    ensures InitialForm.region == Placeholder && InitialForm.gender == Placeholder
    ensures Distinct(PickerValues(IndoreRegions)) && Distinct(PickerValues(Genders))
  {
  }
}
