/** `generateMockTestCases`: the fallback used when no model is
    available. It lower-cases the story and picks one of three fixed sets:
    the login set when the story mentions `login` or `sign in`, otherwise
    the password-reset set when it mentions `reset` or `password`,
    otherwise a generic set. */
module MockCases {
  import opened Text
  import opened Cases

  // The three fixed sets (lines of testGenerator.js).

  const LoginCases: seq<TestCase> := [
    // testGenerator.js:60-70
    TestCase(1, "Successful login with valid credentials",
      ["Navigate to the login page",
       "Enter valid username",
       "Enter valid password",
       "Click login button"],
      "User is successfully logged in and redirected to dashboard"),
    // testGenerator.js:71-80
    TestCase(2, "Login failure with invalid credentials",
      ["Navigate to the login page",
       "Enter invalid username or password",
       "Click login button"],
      "Error message is displayed: \"Invalid credentials\""),
    // testGenerator.js:81-90
    TestCase(3, "Login with empty fields",
      ["Navigate to the login page",
       "Leave username and password fields empty",
       "Click login button"],
      "Validation error messages are displayed for required fields"),
    // testGenerator.js:91-100
    TestCase(4, "Password visibility toggle",
      ["Navigate to the login page",
       "Enter password",
       "Click show/hide password icon"],
      "Password is toggled between visible and masked")]

  const ResetCases: seq<TestCase> := [
    // testGenerator.js:106-115
    TestCase(1, "Successful password reset with valid email",
      ["Navigate to forgot password page",
       "Enter registered email address",
       "Click send reset link button"],
      "Success message displayed and reset email sent"),
    // testGenerator.js:116-125
    TestCase(2, "Password reset with unregistered email",
      ["Navigate to forgot password page",
       "Enter unregistered email address",
       "Click send reset link button"],
      "Error message: \"Email not found\""),
    // testGenerator.js:126-135
    TestCase(3, "Password reset with invalid email format",
      ["Navigate to forgot password page",
       "Enter invalid email format",
       "Click send reset link button"],
      "Validation error: \"Please enter a valid email\"")]

  const GenericCases: seq<TestCase> := [
    // testGenerator.js:141-150
    TestCase(1, "Successful operation with valid inputs",
      ["Navigate to the feature page",
       "Enter valid data in all required fields",
       "Submit the form"],
      "Operation completes successfully with confirmation message"),
    // testGenerator.js:151-160
    TestCase(2, "Error handling with invalid inputs",
      ["Navigate to the feature page",
       "Enter invalid data in required fields",
       "Attempt to submit the form"],
      "Error message is displayed indicating invalid input"),
    // testGenerator.js:161-170
    TestCase(3, "Required field validation",
      ["Navigate to the feature page",
       "Leave required fields empty",
       "Attempt to submit the form"],
      "Validation errors displayed for all required fields"),
    // testGenerator.js:171-180
    TestCase(4, "Boundary condition test",
      ["Navigate to the feature page",
       "Enter data at boundary limits (min/max values)",
       "Submit the form"],
      "System handles boundary values correctly without errors"),
    // testGenerator.js:181-190
    TestCase(5, "Cancel/Back functionality",
      ["Navigate to the feature page",
       "Enter some data",
       "Click cancel or back button"],
      "User is returned to previous page without saving changes")]

  /** `story.toLowerCase().includes(word)`. */
  function Mentions(story: string, word: string): bool
  {
    Contains(ToLower(story), word)
  }

  /** Which of the three sets a story selects. */
  datatype Topic = Login | PasswordReset | Generic

  /** The two tests of `generateMockTestCases`, in their order. */
  function TopicOf(story: string): Topic
  {
    if Mentions(story, "login") || Mentions(story, "sign in") then Login
    else if Mentions(story, "reset") || Mentions(story, "password") then PasswordReset
    else Generic
  }

  function CasesOf(topic: Topic): seq<TestCase>
  {
    match topic
    case Login => LoginCases
    case PasswordReset => ResetCases
    case Generic => GenericCases
  }

  /** `generateMockTestCases(story)`: three to five cases, numbered from
      1 in order, each with at least one step. */
  function MockTestCases(story: string): (r: seq<TestCase>)
    ensures WellFormedSet(r)
    ensures 3 <= |r| <= 5
  {
    CasesWellFormed(TopicOf(story));
    CasesOf(TopicOf(story))
  }

  /** Ids numbered 1, 2, ... in order, and at least one step per case. */
  predicate WellFormedSet(cases: seq<TestCase>)
  {
    forall i :: 0 <= i < |cases| ==> cases[i].id == i + 1 && |cases[i].steps| >= 1
  }

  // ---------------------------------------------------------------------
  // Properties
  // ---------------------------------------------------------------------

  /** `word` occurs somewhere in the lower-cased story. */
  ghost predicate Occurs(story: string, word: string)
  {
    exists i :: OccursAt(ToLower(story), word, i)
  }

  /** The topic, stated on the positions of the keywords in the
      lower-cased story: the login set exactly when `login` or `sign in`
      occurs, even alongside `password` or `reset`; the reset set exactly
      when neither occurs but `reset` or `password` does; the generic set
      otherwise. */
  lemma TopicChoice(story: string)
    ensures TopicOf(story) == Login <==> Occurs(story, "login") || Occurs(story, "sign in")
    ensures TopicOf(story) == PasswordReset
            <==> !(Occurs(story, "login") || Occurs(story, "sign in"))
                 && (Occurs(story, "reset") || Occurs(story, "password"))
    ensures TopicOf(story) == Generic
            <==> !(Occurs(story, "login") || Occurs(story, "sign in") || Occurs(story, "reset") || Occurs(story, "password"))
  {
    var l := ToLower(story);
    ContainsIff(l, "login");
    ContainsIff(l, "sign in");
    ContainsIff(l, "reset");
    ContainsIff(l, "password");
  }

  /** The three sets have 4, 3 and 5 cases. */
  lemma SetSizes(topic: Topic)
    ensures |CasesOf(topic)| == (match topic case Login => 4 case PasswordReset => 3 case Generic => 5)
  {
  }

  /** The story's letter case does not matter: stories that agree once
      lower-cased get the same set, and lower-casing the story first
      changes nothing. */
  lemma CaseInsensitive(story: string, other: string)
    requires ToLower(story) == ToLower(other)
    ensures TopicOf(story) == TopicOf(other)
    ensures TopicOf(ToLower(story)) == TopicOf(story)
  {
    ToLowerIdempotent(story);
  }

  /** Every set numbers its cases 1..n and gives each case a step. */
  lemma CasesWellFormed(topic: Topic)
    ensures WellFormedSet(CasesOf(topic))
    ensures 3 <= |CasesOf(topic)| <= 5
  {
    match topic
    case Login => LoginWellFormed();
    case PasswordReset => ResetWellFormed();
    case Generic => GenericWellFormed();
  }

  lemma LoginWellFormed()
    ensures WellFormedSet(LoginCases)
  {
  }

  lemma ResetWellFormed()
    ensures WellFormedSet(ResetCases)
  {
  }

  lemma GenericWellFormed()
    ensures WellFormedSet(GenericCases)
  {
  }
}
