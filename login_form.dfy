/**
 * The login page's `validateForm`: an email check (required after trimming,
 * then the pattern `^\S+@\S+\.\S+$`) and a password check (required, then at
 * least 8 characters), each recording at most one message.
 */
module LoginForm {
  import opened Options

  const EmailRequired: string := "Email is required"
  const EmailInvalid: string := "Email is invalid"
  const PasswordRequired: string := "Password is required"
  const PasswordTooShort: string := "Password must be at least 8 characters"
  const MinPasswordLength: nat := 8

  /** The errors record: a message per field, absent when the field passed or was not checked. */
  datatype FormErrors = FormErrors(name: Option<string>, email: Option<string>, password: Option<string>)

  /**
   * The characters of the regular-expression class `\s`, which are also the
   * characters `trim` removes: white space and line terminators.
   */
  predicate IsWhitespace(c: char)
  {
    || c == '\t' || c == '\n' || c == '\U{B}' || c == '\U{C}' || c == '\r' || c == ' '
    || c == '\U{A0}' || c == '\U{1680}' || ('\U{2000}' <= c <= '\U{200A}')
    || c == '\U{2028}' || c == '\U{2029}' || c == '\U{202F}' || c == '\U{205F}'
    || c == '\U{3000}' || c == '\U{FEFF}'
  }

  predicate NoWhitespace(s: string)
  {
    forall k :: 0 <= k < |s| ==> !IsWhitespace(s[k])
  }

  /** `trimStart`: the suffix left after dropping leading white space. */
  function TrimStart(s: string): (r: string)
    ensures |r| <= |s| && r == s[|s| - |r|..]
    ensures r != [] ==> !IsWhitespace(r[0])
    ensures forall k :: 0 <= k < |s| - |r| ==> IsWhitespace(s[k])
  {
    if s != [] && IsWhitespace(s[0]) then TrimStart(s[1..]) else s
  }

  /** `trimEnd`: the prefix left after dropping trailing white space. */
  function TrimEnd(s: string): (r: string)
    ensures |r| <= |s| && r == s[..|r|]
    ensures r != [] ==> !IsWhitespace(r[|r| - 1])
    ensures forall k :: |r| <= k < |s| ==> IsWhitespace(s[k])
  {
    if s != [] && IsWhitespace(s[|s| - 1]) then TrimEnd(s[..|s| - 1]) else s
  }

  /** `trim`: white space dropped at both ends. */
  function Trim(s: string): (r: string)
    ensures |r| <= |s|
    ensures r != [] ==> !IsWhitespace(r[0]) && !IsWhitespace(r[|r| - 1])
  {
    TrimEnd(TrimStart(s))
  }

  /** The trimmed string is empty exactly when every character is white space. */
  lemma TrimEmpty(s: string)
    ensures Trim(s) == [] <==> forall k :: 0 <= k < |s| ==> IsWhitespace(s[k])
  {
    var t := TrimStart(s);
    if !forall k :: 0 <= k < |s| ==> IsWhitespace(s[k]) {
      var k :| 0 <= k < |s| && !IsWhitespace(s[k]);
      var d := |s| - |t|;
      assert t == s[d..];
      assert d <= k;
      assert t[k - d] == s[k];
      assert t != [];
      assert !IsWhitespace(t[0]);
    }
  }

  /**
   * The regular expression `^\S+@\S+\.\S+$` read as a language: three
   * non-empty runs with no white space, joined by `@` and `.`.
   */
  ghost predicate MatchesEmailPattern(s: string)
  {
    exists a: string, b: string, c: string ::
      && a != [] && b != [] && c != []
      && NoWhitespace(a) && NoWhitespace(b) && NoWhitespace(c)
      && s == Joined(a, b, c)
  }

  ghost function Joined(a: string, b: string, c: string): string
  {
    a + "@" + b + "." + c
  }

  /**
   * `.test(email)`: no white space anywhere, an `@` after at least one
   * character, and a later `.` with a character between them and one after.
   */
  predicate EmailPatternTest(s: string)
  {
    && NoWhitespace(s)
    && exists i, j :: 1 <= i && i + 2 <= j <= |s| - 2 && s[i] == '@' && s[j] == '.'
  }

  /** The index test accepts exactly the strings of the pattern. */
  lemma EmailPatternTestCorrect(s: string)
    ensures EmailPatternTest(s) <==> MatchesEmailPattern(s)
  {
    if EmailPatternTest(s) {
      EmailPatternTestSound(s);
    }
    if MatchesEmailPattern(s) {
      EmailPatternTestComplete(s);
    }
  }

  /** An accepted string splits at the `@` and the `.` the test found. */
  lemma EmailPatternTestSound(s: string)
    requires EmailPatternTest(s)
    ensures MatchesEmailPattern(s)
  {
    var i, j :| 1 <= i && i + 2 <= j <= |s| - 2 && s[i] == '@' && s[j] == '.';
    var a, b, c := s[..i], s[i + 1..j], s[j + 1..];
    NoWhitespaceSlice(s, 0, i);
    NoWhitespaceSlice(s, i + 1, j);
    NoWhitespaceSlice(s, j + 1, |s|);
    assert s[0..i] == a && s[j + 1..|s|] == c;
    assert s == Joined(a, b, c);
  }

  /** A slice of a string with no white space has none either. */
  lemma NoWhitespaceSlice(s: string, i: nat, j: nat)
    requires NoWhitespace(s) && i <= j <= |s|
    ensures NoWhitespace(s[i..j])
  {
    forall k | 0 <= k < j - i ensures s[i..j][k] == s[i + k] { }
  }

  /** A string of the pattern passes the test at the joints `|a|` and `|a| + 1 + |b|`. */
  lemma EmailPatternTestComplete(s: string)
    requires MatchesEmailPattern(s)
    ensures EmailPatternTest(s)
  {
    var a, b, c :| a != [] && b != [] && c != []
      && NoWhitespace(a) && NoWhitespace(b) && NoWhitespace(c) && s == Joined(a, b, c);
    var i, j := |a|, |a| + 1 + |b|;
    assert s[i] == '@' && s[j] == '.';
    forall k | 0 <= k < |s| ensures !IsWhitespace(s[k]) {
      if k < i {
        assert s[k] == a[k];
      } else if i < k < j {
        assert s[k] == b[k - i - 1];
      } else if j < k {
        assert s[k] == c[k - j - 1];
      }
    }
  }

  /** The email branch of `validateForm`: an else-if chain, so at most one message. */
  function EmailError(email: string): (r: Option<string>)
    ensures r == None || r == Some(EmailRequired) || r == Some(EmailInvalid)
    ensures r == Some(EmailRequired) <==> forall k :: 0 <= k < |email| ==> IsWhitespace(email[k])
    ensures r == None <==> MatchesEmailPattern(email)
  {
    TrimEmpty(email);
    EmailPatternTestCorrect(email);
    if Trim(email) == [] then Some(EmailRequired)
    else if !EmailPatternTest(email) then Some(EmailInvalid)
    else None
  }

  /** The password branch; lengths count characters. */
  function PasswordError(password: string): (r: Option<string>)
    ensures r == Some(PasswordRequired) <==> password == []
    ensures r == Some(PasswordTooShort) <==> 0 < |password| < MinPasswordLength
    ensures r == None <==> |password| >= MinPasswordLength
  {
    if password == [] then Some(PasswordRequired)
    else if |password| < MinPasswordLength then Some(PasswordTooShort)
    else None
  }

  /**
   * `validateForm` on the field values: both checks always run, `name` is
   * never checked, and the result says that neither check recorded a message.
   */
  method Validate(email: string, password: string) returns (errors: FormErrors, isValid: bool)
    ensures errors == FormErrors(None, EmailError(email), PasswordError(password))
    ensures isValid <==> errors.email == None && errors.password == None
    ensures isValid <==> MatchesEmailPattern(email) && |password| >= MinPasswordLength
  {
    errors := FormErrors(None, None, None);
    isValid := true;
    TrimEmpty(email);
    EmailPatternTestCorrect(email);
    if Trim(email) == [] {
      errors := errors.(email := Some(EmailRequired));
      isValid := false;
    } else if !EmailPatternTest(email) {
      errors := errors.(email := Some(EmailInvalid));
      isValid := false;
    }
    if password == [] {
      errors := errors.(password := Some(PasswordRequired));
      isValid := false;
    } else if |password| < MinPasswordLength {
      errors := errors.(password := Some(PasswordTooShort));
      isValid := false;
    }
  }

  /** Both messages can be reported at once. */
  lemma BothErrorsTogether()
    ensures EmailError("") == Some(EmailRequired) && PasswordError("") == Some(PasswordRequired)
    ensures EmailError("a@b") == Some(EmailInvalid) && PasswordError("1234567") == Some(PasswordTooShort)
  {
    assert !IsWhitespace('a');
  }

  /** The form's state: the three inputs and the errors shown under them. */
  class Form {
    var name: string
    var email: string
    var password: string
    var errors: FormErrors

    constructor ()
      ensures name == "" && email == "" && password == ""
      ensures errors == FormErrors(None, None, None)
    {
      name := "";
      email := "";
      password := "";
      errors := FormErrors(None, None, None);
    }

    /**
     * `validateForm`: stores the new errors record (`setErrors`), computed
     * from the inputs as they were on entry, and returns the flag; the frame
     * leaves the three inputs as they are.
     */
    method ValidateForm() returns (isValid: bool)
      modifies this`errors
      ensures errors == FormErrors(None, EmailError(old(email)), PasswordError(old(password)))
      ensures isValid <==> errors.email == None && errors.password == None
    {
      errors, isValid := Validate(email, password);
    }
  }
}
