/**
 * The sign-up form's checks: each of the three fields gets at most one error,
 * the required error or the field's own check, and the form is submitted only
 * when no error was recorded.
 */
module SignUp {

  datatype Field = Email | Password | ConfirmPassword

  const EmailRequired: string := "電子郵件為必填欄位"
  const EmailInvalid: string := "請輸入有效的電子郵件地址"
  const PasswordRequired: string := "密碼為必填欄位"
  const PasswordTooShort: string := "密碼至少需要6個字符"
  const ConfirmRequired: string := "請確認密碼"
  const ConfirmMismatch: string := "密碼不匹配"

  /** The characters JavaScript's `\s` matches. */
  predicate IsSpace(c: char)
  {
    c == '\t' || c == '\n' || c == '\U{0B}' || c == '\U{0C}' || c == '\r' || c == ' '
    || c == '\U{A0}' || c == '\U{1680}' || ('\U{2000}' <= c <= '\U{200A}')
    || c == '\U{2028}' || c == '\U{2029}' || c == '\U{202F}' || c == '\U{205F}'
    || c == '\U{3000}' || c == '\U{FEFF}'
  }

  predicate NoSpace(t: string)
  {
    forall k :: 0 <= k < |t| ==> !IsSpace(t[k])
  }

  /**
   * The test `/\S+@\S+\.\S+/.test(s)`: somewhere in `s` an "@" at `p` and a
   * "." at `q`, with a non-space character before the "@", at least one between
   * them, one after the ".", and no space from `p - 1` to `q + 1`.
   */
  predicate MatchesEmailPattern(s: string)
  {
    exists p, q :: 0 < p && p + 1 < q && q + 1 < |s| && s[p] == '@' && s[q] == '.' && NoSpace(s[p - 1..q + 2])
  }

  /** `t` is in the language `\S+@\S+\.\S+`. */
  ghost predicate EmailShaped(t: string)
  {
    exists a: string, b: string, c: string ::
      && a != [] && b != [] && c != []
      && NoSpace(a) && NoSpace(b) && NoSpace(c)
      && t == a + ['@'] + b + ['.'] + c
  }

  /** The unanchored pattern: some substring of `s` is in the language. */
  ghost predicate ContainsEmailShape(s: string)
  {
    exists i, j :: 0 <= i <= j <= |s| && EmailShaped(s[i..j])
  }

  lemma ShapeAt(s: string, p: int, q: int)
    requires 0 < p && p + 1 < q && q + 1 < |s| && s[p] == '@' && s[q] == '.' && NoSpace(s[p - 1..q + 2])
    ensures EmailShaped(s[p - 1..q + 2])
  {
    var a, b, c := s[p - 1..p], s[p + 1..q], s[q + 1..q + 2];
    assert s[p - 1..q + 2] == a + ['@'] + b + ['.'] + c;
    assert NoSpace(a) && NoSpace(b) && NoSpace(c) by {
      forall k | 0 <= k < |b| ensures !IsSpace(b[k]) {
        assert b[k] == s[p - 1..q + 2][k + 2];
      }
      assert a[0] == s[p - 1..q + 2][0];
      assert c[0] == s[p - 1..q + 2][|s[p - 1..q + 2]| - 1];
    }
  }

  lemma PatternFromShape(s: string, i: int, j: int, a: string, b: string, c: string)
    requires 0 <= i <= j <= |s|
    requires a != [] && b != [] && c != [] && NoSpace(a) && NoSpace(b) && NoSpace(c)
    requires s[i..j] == a + ['@'] + b + ['.'] + c
    ensures MatchesEmailPattern(s)
  {
    var t := s[i..j];
    var p, q := i + |a|, i + |a| + 1 + |b|;
    assert t[|a|] == '@' && t[|a| + 1 + |b|] == '.';
    assert s[p] == '@' && s[q] == '.';
    var w := s[p - 1..q + 2];
    forall k | 0 <= k < |w|
      ensures !IsSpace(w[k])
    {
      var m := |a| - 1 + k;
      assert w[k] == t[m];
      if m < |a| {
        assert t[m] == a[m];
      } else if m == |a| {
      } else if m < |a| + 1 + |b| {
        assert t[m] == b[m - |a| - 1];
      } else if m == |a| + 1 + |b| {
      } else {
        assert t[m] == c[m - |a| - 2 - |b|];
      }
    }
    assert NoSpace(w);
  }

  /** The pattern test finds exactly the strings with a substring in `\S+@\S+\.\S+`. */
  lemma MatchesEmailPatternMeaning(s: string)
    ensures MatchesEmailPattern(s) <==> ContainsEmailShape(s)
  {
    if MatchesEmailPattern(s) {
      var p, q :| 0 < p && p + 1 < q && q + 1 < |s| && s[p] == '@' && s[q] == '.' && NoSpace(s[p - 1..q + 2]);
      ShapeAt(s, p, q);
    }
    if ContainsEmailShape(s) {
      var i, j :| 0 <= i <= j <= |s| && EmailShaped(s[i..j]);
      var a: string, b: string, c: string :|
        && a != [] && b != [] && c != []
        && NoSpace(a) && NoSpace(b) && NoSpace(c)
        && s[i..j] == a + ['@'] + b + ['.'] + c;
      PatternFromShape(s, i, j, a, b, c);
    }
  }

  predicate EmailAccepted(email: string)
  {
    email != "" && MatchesEmailPattern(email)
  }

  predicate PasswordAccepted(password: string)
  {
    password != "" && |password| >= 6
  }

  predicate ConfirmationAccepted(password: string, confirmPassword: string)
  {
    confirmPassword != "" && password == confirmPassword
  }

  /**
   * Fills the error object field by field: for each field the required error
   * when it is empty, otherwise its own check's error when that check fails.
   */
  method CollectErrors(email: string, password: string, confirmPassword: string)
    returns (errors: map<Field, string>)
    ensures Email in errors <==> !EmailAccepted(email)
    ensures Email in errors ==> errors[Email] == if email == "" then EmailRequired else EmailInvalid
    ensures Password in errors <==> !PasswordAccepted(password)
    ensures Password in errors ==> errors[Password] == if password == "" then PasswordRequired else PasswordTooShort
    ensures ConfirmPassword in errors <==> !ConfirmationAccepted(password, confirmPassword)
    ensures ConfirmPassword in errors ==>
              errors[ConfirmPassword] == if confirmPassword == "" then ConfirmRequired else ConfirmMismatch
  {
    errors := map[];
    if email == "" {
      errors := errors[Email := EmailRequired];
    } else if !MatchesEmailPattern(email) {
      errors := errors[Email := EmailInvalid];
    }
    if password == "" {
      errors := errors[Password := PasswordRequired];
    } else if |password| < 6 {
      errors := errors[Password := PasswordTooShort];
    }
    if confirmPassword == "" {
      errors := errors[ConfirmPassword := ConfirmRequired];
    } else if password != confirmPassword {
      errors := errors[ConfirmPassword := ConfirmMismatch];
    }
  }

  /** The form's state: the three inputs, the loading flag and the shown errors. */
  class SignUpForm {
    var email: string
    var password: string
    var confirmPassword: string
    var isLoading: bool
    var errors: map<Field, string>
    /** Every value passed to `setIsLoading`, in order. */
    ghost var loadingHistory: seq<bool>

    constructor ()
      ensures email == "" && password == "" && confirmPassword == ""
      ensures !isLoading && errors == map[] && loadingHistory == []
    {
      email, password, confirmPassword := "", "", "";
      isLoading, errors := false, map[];
      loadingHistory := [];
    }

    /** Records the errors for the current inputs and reports whether there are none. */
    method ValidateForm() returns (ok: bool)
      modifies this`errors
      ensures ok <==> errors == map[]
      ensures ok <==> EmailAccepted(email) && PasswordAccepted(password) && ConfirmationAccepted(password, confirmPassword)
      ensures Email in errors <==> !EmailAccepted(email)
      ensures Password in errors <==> !PasswordAccepted(password)
      ensures ConfirmPassword in errors <==> !ConfirmationAccepted(password, confirmPassword)
      ensures Email in errors ==> errors[Email] == if email == "" then EmailRequired else EmailInvalid
      ensures Password in errors ==> errors[Password] == if password == "" then PasswordRequired else PasswordTooShort
      ensures ConfirmPassword in errors ==>
                errors[ConfirmPassword] == if confirmPassword == "" then ConfirmRequired else ConfirmMismatch
    {
      errors := CollectErrors(email, password, confirmPassword);
      ok := |errors| == 0;
      if !ok {
        assert Email in errors || Password in errors || ConfirmPassword in errors by {
          var f :| f in errors;
          match f
          case Email =>
          case Password =>
          case ConfirmPassword =>
        }
      }
    }

    /**
     * Validates first and returns at once on failure, before the loading flag
     * is touched; on success raises the flag and, the registration itself being
     * a placeholder, lowers it again.
     */
    method HandleSubmit() returns (submitted: bool)
      modifies this`errors, this`isLoading, this`loadingHistory
      ensures submitted <==> EmailAccepted(email) && PasswordAccepted(password)
                             && ConfirmationAccepted(password, confirmPassword)
      ensures !submitted ==> isLoading == old(isLoading) && loadingHistory == old(loadingHistory)
      ensures submitted ==> !isLoading && loadingHistory == old(loadingHistory) + [true, false]
      ensures submitted <==> errors == map[]
      ensures Email in errors <==> !EmailAccepted(email)
      ensures Password in errors <==> !PasswordAccepted(password)
      ensures ConfirmPassword in errors <==> !ConfirmationAccepted(password, confirmPassword)
      ensures Email in errors ==> errors[Email] == if email == "" then EmailRequired else EmailInvalid
      ensures Password in errors ==> errors[Password] == if password == "" then PasswordRequired else PasswordTooShort
      ensures ConfirmPassword in errors ==>
                errors[ConfirmPassword] == if confirmPassword == "" then ConfirmRequired else ConfirmMismatch
    {
      var ok := ValidateForm();
      if !ok {
        return false;
      }
      isLoading := true;
      loadingHistory := loadingHistory + [true];
      isLoading := false;
      loadingHistory := loadingHistory + [false];
      return true;
    }
  }
}
