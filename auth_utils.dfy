/**
 * The input validators of src/utils/auth-utils.ts. Each either returns (here
 * `Pass`) or throws a `BadRequest` (here `Fail` carrying that error); checks run
 * in a fixed order and the first one that fails decides the message.
 *
 * The email test is the regular expression /^[^\s@]+@[^\s@]+\.[^\s@]+$/. It is
 * given twice: `MatchesEmailRegex` reads the pattern literally (three non-empty
 * runs of characters that are neither whitespace nor '@', separated by an '@'
 * and a '.'), and `IsEmail` decides it character by character with a
 * seven-state automaton; `EmailScanCorrect` proves the two agree.
 */
module AuthUtils {
  import opened Wrappers
  import opened Errors
  import ErrorHandling

  /** JavaScript's `\s`: the ECMAScript WhiteSpace and LineTerminator code points. */
  predicate IsSpace(c: char) {
    c == '\t' || c == '\n' || c == '\U{000B}' || c == '\U{000C}' || c == '\r' || c == ' '
    || c == '\U{00A0}' || c == '\U{1680}' || ('\U{2000}' <= c <= '\U{200A}')
    || c == '\U{2028}' || c == '\U{2029}' || c == '\U{202F}' || c == '\U{205F}'
    || c == '\U{3000}' || c == '\U{FEFF}'
  }

  /** The character class `[^\s@]`. */
  predicate InClass(c: char) {
    !IsSpace(c) && c != '@'
  }

  /** Every character of `s[lo..hi]` is in `[^\s@]`. */
  ghost predicate AllInClass(s: string, lo: int, hi: int)
    requires 0 <= lo <= hi <= |s|
  {
    forall k :: lo <= k < hi ==> InClass(s[k])
  }

  /** No character of `s[lo..hi]` is a '.'. */
  ghost predicate NoDot(s: string, lo: int, hi: int)
    requires 0 <= lo && hi <= |s|
  {
    forall k :: lo <= k < hi ==> s[k] != '.'
  }

  /**
   * `s[..n]` splits as the pattern demands, with the '@' at index `at` and the
   * separating '.' at index `dot`: s[..at], s[at+1..dot] and s[dot+1..n] are
   * non-empty runs of `[^\s@]`.
   */
  ghost predicate EmailSplit(s: string, n: int, at: int, dot: int)
    requires 0 <= n <= |s|
  {
    && 0 < at && at + 1 < dot && dot + 1 < n
    && s[at] == '@' && s[dot] == '.'
    && AllInClass(s, 0, at) && AllInClass(s, at + 1, dot) && AllInClass(s, dot + 1, n)
  }

  /** `s` matches /^[^\s@]+@[^\s@]+\.[^\s@]+$/ (`$` without the `m` flag: end of input). */
  ghost predicate MatchesEmailRegex(s: string) {
    exists at, dot :: EmailSplit(s, |s|, at, dot)
  }

  /** States of the scanner: what the prefix read so far still allows. */
  datatype ScanState =
    | Start      // nothing read
    | Local      // a non-empty local part
    | AfterAt    // local part and the '@'
    | Domain     // some domain characters, no '.' usable as separator yet
    | AfterDot   // the domain ends in a '.' that has a character before it
    | Accept     // a separating '.' with characters on both sides has been read
    | Reject     // no extension of the prefix can match

  function Step(q: ScanState, c: char): ScanState {
    if IsSpace(c) then Reject
    else match q
      case Start => if c == '@' then Reject else Local
      case Local => if c == '@' then AfterAt else Local
      case AfterAt => if c == '@' then Reject else Domain
      case Domain => if c == '@' then Reject else if c == '.' then AfterDot else Domain
      case AfterDot => if c == '@' then Reject else Accept
      case Accept => if c == '@' then Reject else Accept
      case Reject => Reject
  }

  /** The state after reading `s[..n]`. */
  function ScanTo(s: string, n: nat): ScanState
    requires n <= |s|
  {
    if n == 0 then Start else Step(ScanTo(s, n - 1), s[n - 1])
  }

  /** The character-level email test. */
  predicate IsEmail(s: string) {
    ScanTo(s, |s|) == Accept
  }

  /** What each state says about the prefix `s[..n]` that led to it. */
  ghost predicate Describes(q: ScanState, s: string, n: nat)
    requires n <= |s|
  {
    match q
    case Start => n == 0
    case Local => n >= 1 && AllInClass(s, 0, n)
    case AfterAt => n >= 2 && s[n - 1] == '@' && AllInClass(s, 0, n - 1)
    case Domain =>
      exists at :: 0 < at && at + 1 < n && s[at] == '@' && AllInClass(s, 0, at)
        && AllInClass(s, at + 1, n) && NoDot(s, at + 2, n)
    case AfterDot =>
      exists at :: 0 < at && at + 2 < n && s[at] == '@' && AllInClass(s, 0, at)
        && AllInClass(s, at + 1, n) && s[n - 1] == '.'
        && NoDot(s, at + 2, n - 1)
    case Accept => exists at, dot :: EmailSplit(s, n, at, dot)
    case Reject =>
      || (exists k :: 0 <= k < n && IsSpace(s[k]))
      || (n > 0 && s[0] == '@')
      || (exists i, j :: 0 <= i < j < n && s[i] == '@' && s[j] == '@')
  }

  /** The scanner's state always tells the truth about the prefix read. */
  lemma {:induction false} ScanDescribes(s: string, n: nat)
    requires n <= |s|
    ensures Describes(ScanTo(s, n), s, n)
  {
    if n > 0 {
      ScanDescribes(s, n - 1);
      var q, c := ScanTo(s, n - 1), s[n - 1];
      if IsSpace(c) {
        assert 0 <= n - 1 < n && IsSpace(s[n - 1]);
      } else {
        match q
        case Start =>
        case Local =>
        case AfterAt =>
          if c != '@' {
            var at := n - 2;
            assert 0 < at && at + 1 < n && s[at] == '@' && AllInClass(s, 0, at)
              && AllInClass(s, at + 1, n) && NoDot(s, at + 2, n);
          } else {
            assert 0 <= n - 2 < n - 1 < n && s[n - 2] == '@' && s[n - 1] == '@';
          }
        case Domain =>
          var at :| 0 < at && at + 1 < n - 1 && s[at] == '@' && AllInClass(s, 0, at)
            && AllInClass(s, at + 1, n - 1) && NoDot(s, at + 2, n - 1);
          if c == '@' {
            assert 0 <= at < n - 1 < n && s[at] == '@' && s[n - 1] == '@';
          } else if c == '.' {
            assert at + 2 < n;
          } else {
            assert NoDot(s, at + 2, n);
          }
        case AfterDot =>
          var at :| 0 < at && at + 2 < n - 1 && s[at] == '@' && AllInClass(s, 0, at)
            && AllInClass(s, at + 1, n - 1) && s[n - 2] == '.'
            && NoDot(s, at + 2, n - 2);
          if c == '@' {
            assert 0 <= at < n - 1 < n && s[at] == '@' && s[n - 1] == '@';
          } else {
            assert EmailSplit(s, n, at, n - 2);
          }
        case Accept =>
          var at, dot :| EmailSplit(s, n - 1, at, dot);
          if c == '@' {
            assert 0 <= at < n - 1 < n && s[at] == '@' && s[n - 1] == '@';
          } else {
            assert EmailSplit(s, n, at, dot);
          }
        case Reject =>
          if exists k :: 0 <= k < n - 1 && IsSpace(s[k]) {
            var k :| 0 <= k < n - 1 && IsSpace(s[k]);
            assert 0 <= k < n && IsSpace(s[k]);
          } else if !(n - 1 > 0 && s[0] == '@') {
            var i, j :| 0 <= i < j < n - 1 && s[i] == '@' && s[j] == '@';
            assert 0 <= i < j < n && s[i] == '@' && s[j] == '@';
          }
      }
    }
  }

  /** Under a match, the '@' at `at` is the only character of `s` outside `[^\s@]`. */
  lemma SplitClassifies(s: string, at: int, dot: int, k: int)
    requires EmailSplit(s, |s|, at, dot)
    requires 0 <= k < |s| && k != at
    ensures InClass(s[k])
  {
    if k == dot {
    } else if k < at {
      assert AllInClass(s, 0, at);
    } else if k < dot {
      assert AllInClass(s, at + 1, dot);
    } else {
      assert AllInClass(s, dot + 1, |s|);
    }
  }

  /** The automaton decides exactly the regular expression. */
  lemma EmailScanCorrect(s: string)
    ensures IsEmail(s) <==> MatchesEmailRegex(s)
  {
    ScanDescribes(s, |s|);
    if MatchesEmailRegex(s) {
      var at, dot :| EmailSplit(s, |s|, at, dot);
      forall k | 0 <= k < |s| && k != at
        ensures InClass(s[k])
      {
        SplitClassifies(s, at, dot, k);
      }
    }
  }

  /** `validateEmail`'s return or throw. */
  datatype Validation = Pass | Fail(error: ApplicationError)

  /** `validateEmail(email)`: succeeds exactly on strings the pattern matches, else BadRequest 'Invalid email'. */
  function ValidateEmail(email: string): (r: Validation)
    ensures r.Pass? <==> MatchesEmailRegex(email)
    ensures r.Fail? ==> r.error == NewBadRequest(Some("Invalid email")) && r.error.status == 400
  {
    EmailScanCorrect(email);
    if IsEmail(email) then Pass else Fail(NewBadRequest(Some("Invalid email")))
  }

  /**
   * JavaScript's `!x` on a request field: it is missing (`undefined`) or the
   * empty string.
   */
  predicate Blank(field: Option<string>) {
    field.None? || field.value == ""
  }

  /** `s.length`: JavaScript counts UTF-16 code units, two for a character outside the BMP. */
  function Utf16Length(s: string): (n: nat)
    ensures |s| <= n <= 2 * |s|
    ensures (forall k :: 0 <= k < |s| ==> s[k] <= '\U{FFFF}') ==> n == |s|
  {
    if s == [] then 0 else (if s[0] <= '\U{FFFF}' then 1 else 2) + Utf16Length(s[1..])
  }

  const AllFieldsRequired := "All fields are required"
  const InvalidEmail := "Invalid email"
  const PasswordTooShort := "Password must be at least 6 characters"

  /** `validateSignupInput(email, password, username)`. */
  function ValidateSignupInput(email: Option<string>, password: Option<string>, username: Option<string>): (r: Validation)
    // A missing or empty field is reported first, whatever else is wrong.
    ensures Blank(email) || Blank(password) || Blank(username) ==>
      r == Fail(NewBadRequest(Some(AllFieldsRequired)))
    // The email format is checked before the password length.
    ensures !Blank(email) && !Blank(password) && !Blank(username) && !MatchesEmailRegex(email.value) ==>
      r == Fail(NewBadRequest(Some(InvalidEmail)))
    ensures !Blank(email) && !Blank(password) && !Blank(username) && MatchesEmailRegex(email.value)
            && Utf16Length(password.value) < 6 ==>
      r == Fail(NewBadRequest(Some(PasswordTooShort)))
    ensures r.Pass? <==>
      !Blank(email) && !Blank(password) && !Blank(username)
      && MatchesEmailRegex(email.value) && Utf16Length(password.value) >= 6
  {
    if Blank(email) || Blank(password) || Blank(username) then
      Fail(NewBadRequest(Some(AllFieldsRequired)))
    else match ValidateEmail(email.value)
      case Fail(e) => Fail(e)
      case Pass =>
        if Utf16Length(password.value) < 6 then Fail(NewBadRequest(Some(PasswordTooShort))) else Pass
  }

  /** `validateLoginInput(email, password)`: no password-length rule. */
  function ValidateLoginInput(email: Option<string>, password: Option<string>): (r: Validation)
    ensures Blank(email) || Blank(password) ==> r == Fail(NewBadRequest(Some(AllFieldsRequired)))
    ensures !Blank(email) && !Blank(password) && !MatchesEmailRegex(email.value) ==>
      r == Fail(NewBadRequest(Some(InvalidEmail)))
    ensures r.Pass? <==> !Blank(email) && !Blank(password) && MatchesEmailRegex(email.value)
  {
    if Blank(email) || Blank(password) then
      Fail(NewBadRequest(Some(AllFieldsRequired)))
    else
      ValidateEmail(email.value)
  }

  /** Passing signup implies passing login with the same email and password; not the converse. */
  lemma SignupStricterThanLogin(email: Option<string>, password: Option<string>, username: Option<string>)
    ensures ValidateSignupInput(email, password, username).Pass? ==> ValidateLoginInput(email, password).Pass?
    ensures ValidateLoginInput(Some("a@b.cd"), Some("x")).Pass?
    ensures ValidateSignupInput(Some("a@b.cd"), Some("x"), Some("u")).Fail?
  {
    ExampleAddresses();
  }

  /** A password of exactly six characters is long enough; five is not. */
  lemma PasswordLengthBoundary(username: string)
    requires username != ""
    ensures ValidateSignupInput(Some("a@b.cd"), Some("abcdef"), Some(username)) == Pass
    ensures ValidateSignupInput(Some("a@b.cd"), Some("abcde"), Some(username))
         == Fail(NewBadRequest(Some(PasswordTooShort)))
  {
    ExampleAddresses();
  }

  /** Concrete strings for and against the pattern. */
  lemma ExampleAddresses()
    ensures MatchesEmailRegex("a@b.cd")
    ensures MatchesEmailRegex("test@example.com")
    ensures !MatchesEmailRegex("invalid")
    ensures !MatchesEmailRegex("a@b.")
    ensures !MatchesEmailRegex("a@.b")
    ensures !MatchesEmailRegex("a b@c.d")
  {
    assert EmailSplit("a@b.cd", 6, 1, 3);
    assert EmailSplit("test@example.com", 16, 4, 12);
    EmailScanCorrect("invalid");
    EmailScanCorrect("a@b.");
    EmailScanCorrect("a@.b");
    assert ScanTo("a b@c.d", 2) == Reject;
    assert ScanTo("a b@c.d", 5) == Reject;
    EmailScanCorrect("a b@c.d");
  }

  /** Every failure of the validators reaches the client as a 400 with the validator's message. */
  lemma ValidatorFailuresRespond400(email: Option<string>, password: Option<string>, username: Option<string>)
    ensures var r := ValidateSignupInput(email, password, username);
      r.Fail? ==> ErrorHandling.ErrorHandler(AppError(r.error), false)
                  == ErrorHandling.Respond([], 400, ErrorHandling.ResponseBody(false, r.error.message))
    ensures var r := ValidateLoginInput(email, password);
      r.Fail? ==> ErrorHandling.ErrorHandler(AppError(r.error), false)
                  == ErrorHandling.Respond([], 400, ErrorHandling.ResponseBody(false, r.error.message))
  {
  }
}
