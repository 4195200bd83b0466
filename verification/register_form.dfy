/** The login page's client-side logic (public/script.js): the password-strength score and
    the CSS class it selects, and the ordered checks the register form runs before it
    sends anything. Lengths are JavaScript `length`s, counted in UTF-16 units. */
module RegisterForm {
  import opened JsString

  /** `/[a-z]/` finds a match. */
  predicate HasLower(s: string)
  {
    exists i :: 0 <= i < |s| && 'a' <= s[i] <= 'z'
  }

  /** `/[A-Z]/` finds a match. */
  predicate HasUpper(s: string)
  {
    exists i :: 0 <= i < |s| && 'A' <= s[i] <= 'Z'
  }

  /** `/\d/` finds a match. */
  predicate HasDigit(s: string)
  {
    exists i :: 0 <= i < |s| && IsDigit(s[i])
  }

  predicate IsAlphanumeric(c: char)
  {
    ('a' <= c <= 'z') || ('A' <= c <= 'Z') || IsDigit(c)
  }

  /** `/[^a-zA-Z\d]/` finds a match. */
  predicate HasSymbol(s: string)
  {
    exists i :: 0 <= i < |s| && !IsAlphanumeric(s[i])
  }

  /** The four strength criteria, in the order the scorer checks them. */
  function Criteria(password: string): (c: seq<bool>)
    ensures |c| == 4
  {
    [ Utf16Length(password) >= 8,
      HasLower(password) && HasUpper(password),
      HasDigit(password),
      HasSymbol(password) ]
  }

  function CountTrue(bs: seq<bool>): (n: nat)
    ensures n <= |bs|
    ensures n == 0 <==> forall i :: 0 <= i < |bs| ==> !bs[i]
    ensures n == |bs| <==> forall i :: 0 <= i < |bs| ==> bs[i]
  {
    if bs == [] then 0 else (if bs[0] then 1 else 0) + CountTrue(bs[1..])
  }

  lemma CountFour(c: seq<bool>)
    requires |c| == 4
    ensures CountTrue(c) == (if c[0] then 1 else 0) + (if c[1] then 1 else 0)
                          + (if c[2] then 1 else 0) + (if c[3] then 1 else 0)
  {
    assert c[1..][1..][1..][1..] == [];
    assert CountTrue(c[1..][1..][1..]) == (if c[3] then 1 else 0);
  }

  /** The class added to the strength bar: none for a score of 0. */
  datatype Level = Plain | Weak | Medium | Strong

  function LevelOf(score: nat): (l: Level)
    ensures l == Plain <==> score == 0
    ensures l == Weak <==> score == 1
    ensures l == Medium <==> score == 2
    ensures l == Strong <==> score >= 3
  {
    if score == 1 then Weak
    else if score == 2 then Medium
    else if score >= 3 then Strong
    else Plain
  }

  /** `checkPasswordStrength`: one point per criterion met, so the score is between 0 and 4;
      the bar's class follows from the score. */
  method CheckPasswordStrength(password: string) returns (strength: nat, level: Level)
    ensures strength == CountTrue(Criteria(password))
    ensures strength <= 4
    ensures strength == 4 <==> Utf16Length(password) >= 8 && HasLower(password) && HasUpper(password)
                               && HasDigit(password) && HasSymbol(password)
    ensures strength == 0 <==> Utf16Length(password) < 8 && !(HasLower(password) && HasUpper(password))
                               && !HasDigit(password) && !HasSymbol(password)
    ensures level == LevelOf(strength)
  {
    strength := 0;
    if Utf16Length(password) >= 8 {
      strength := strength + 1;
    }
    if HasLower(password) && HasUpper(password) {
      strength := strength + 1;
    }
    if HasDigit(password) {
      strength := strength + 1;
    }
    if HasSymbol(password) {
      strength := strength + 1;
    }
    CountFour(Criteria(password));
    level := LevelOf(strength);
  }

  /** Each criterion, once met, stays met when characters are appended. */
  lemma CriteriaPersist(p: string, q: string, k: nat)
    requires k < 4 && Criteria(p)[k]
    ensures Criteria(p + q)[k]
  {
    var s := p + q;
    if k == 0 {
      Utf16LengthAppend(p, q);
    } else if k == 1 {
      var i :| 0 <= i < |p| && 'a' <= p[i] <= 'z';
      var j :| 0 <= j < |p| && 'A' <= p[j] <= 'Z';
      assert s[i] == p[i] && s[j] == p[j];
    } else if k == 2 {
      var i :| 0 <= i < |p| && IsDigit(p[i]);
      assert s[i] == p[i];
    } else {
      var i :| 0 <= i < |p| && !IsAlphanumeric(p[i]);
      assert s[i] == p[i];
    }
  }

  /** A count never drops when every true entry stays true. */
  lemma {:induction false} CountTrueMonotone(a: seq<bool>, b: seq<bool>)
    requires |a| == |b|
    requires forall i :: 0 <= i < |a| && a[i] ==> b[i]
    ensures CountTrue(a) <= CountTrue(b)
  {
    if a != [] {
      CountTrueMonotone(a[1..], b[1..]);
    }
  }

  /** Typing more characters never lowers the password's score. */
  lemma StrengthNeverDropsWhenExtended(p: string, q: string)
    ensures CountTrue(Criteria(p)) <= CountTrue(Criteria(p + q))
  {
    forall k | 0 <= k < 4 && Criteria(p)[k]
      ensures Criteria(p + q)[k]
    {
      CriteriaPersist(p, q, k);
    }
    CountTrueMonotone(Criteria(p), Criteria(p + q));
  }

  /** The register form's verdict: the first failing check, or the request it sends. */
  datatype Outcome =
    | UsernameTooShort
    | PasswordTooShort
    | PasswordMismatch
    | Submit(username: string, email: string, password: string, confirmPassword: string)
  {
    /** The text shown under the failing field. */
    function ErrorText(): string
      requires !Submit?
    {
      match this
      case UsernameTooShort => "Username must be at least 3 characters"
      case PasswordTooShort => "Password must be at least 6 characters"
      case PasswordMismatch => "Passwords do not match"
    }
  }

  /** The register submit handler up to the request: username and email are trimmed, the
      passwords are taken as typed; the checks run in order and stop at the first failure. */
  function CheckRegistration(username: string, email: string, password: string, confirmPassword: string): (o: Outcome)
    ensures o == UsernameTooShort <==> Utf16Length(Trim(username)) < 3
    ensures o == PasswordTooShort <==> Utf16Length(Trim(username)) >= 3 && Utf16Length(password) < 6
    ensures o == PasswordMismatch <==>
      Utf16Length(Trim(username)) >= 3 && Utf16Length(password) >= 6 && password != confirmPassword
    ensures o.Submit? <==>
      Utf16Length(Trim(username)) >= 3 && Utf16Length(password) >= 6 && password == confirmPassword
    ensures o.Submit? ==>
      o.username == Trim(username) && o.email == Trim(email)
      && o.password == password && o.confirmPassword == confirmPassword
    ensures !o.Submit? ==>
      o.ErrorText() == (if Utf16Length(Trim(username)) < 3 then "Username must be at least 3 characters"
                        else if Utf16Length(password) < 6 then "Password must be at least 6 characters"
                        else "Passwords do not match")
  {
    var name := Trim(username);
    var mail := Trim(email);
    if Utf16Length(name) < 3 then UsernameTooShort
    else if Utf16Length(password) < 6 then PasswordTooShort
    else if password != confirmPassword then PasswordMismatch
    else Submit(name, mail, password, confirmPassword)
  }
}
