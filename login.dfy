/** The sign-in form (screens/LoginPage.js). */
module Login {
  import opened Ui

  const FillAllFields: Alert := Alert("Error", "Please fill in all fields")

  /** The route a successful sign-in opens. */
  const SuccessRoute: string := "Success"

  /** `handleLogin`: both fields must be non-empty; nothing else about them
      is checked. An empty field shows an error and stays on the screen;
      otherwise the app goes to the camera screen, with no notice. */
  function HandleLogin(email: string, password: string): (d: Decision)
    ensures d.Stay? <==> email == "" || password == ""
    ensures d.Stay? ==> d.error == FillAllFields
    ensures d.Navigate? ==> d.route == SuccessRoute && d.notice == None
  {
    if !Truthy(email) || !Truthy(password) then Stay(FillAllFields)
    else Navigate(None, SuccessRoute)
  }

  /** The outcome depends only on which fields are empty, so any whitespace
      or malformed address passes. */
  lemma OnlyEmptinessMatters(e1: string, p1: string, e2: string, p2: string)
    requires (e1 == "") == (e2 == "") && (p1 == "") == (p2 == "")
    ensures HandleLogin(e1, p1) == HandleLogin(e2, p2)
  {
  }

  lemma WhitespaceSignsIn()
    ensures HandleLogin(" ", " ") == Navigate(None, SuccessRoute)
  {
  }
}
