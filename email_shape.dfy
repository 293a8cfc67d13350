/**
 * `isValidEmail` of the application helpers: the shape `local@domain.top`, with
 * no whitespace and no second `@` anywhere.
 */
module EmailShape {
  import opened Text

  /** A character the pattern's `[^\s@]` accepts. */
  predicate AddressChar(c: char) {
    !IsJsWhitespace(c) && c != '@'
  }

  predicate AddressPart(s: string) {
    |s| > 0 && forall k :: 0 <= k < |s| ==> AddressChar(s[k])
  }

  /**
   * `isValidEmail`, the pattern `^[^\s@]+@[^\s@]+\.[^\s@]+$` read as positions:
   * an `@` at `i` and a `.` at `j`, each with at least one character before and
   * after it, and every other character neither whitespace nor `@`.
   */
  predicate IsValidEmail(email: string) {
    exists i, j | 0 < i && i + 1 < j < |email| - 1 ::
      && email[i] == '@' && email[j] == '.'
      && (forall k | 0 <= k < |email| && k != i :: AddressChar(email[k]))
  }

  /** The language of the pattern, part by part. */
  ghost predicate MatchesEmailPattern(email: string) {
    exists local, domain, top ::
      && email == local + "@" + domain + "." + top
      && AddressPart(local) && AddressPart(domain) && AddressPart(top)
  }

  // ---------------------------------------------------------------------------
  // Lemmas

  /** A string cut around two positions. */
  lemma CutAt(s: string, i: int, j: int)
    requires 0 <= i < j < |s|
    ensures s == s[..i] + [s[i]] + s[i + 1..j] + [s[j]] + s[j + 1..]
  {
  }

  /** Every string the positional reading accepts belongs to the pattern. */
  lemma EmailPatternComplete(email: string)
    requires IsValidEmail(email)
    ensures MatchesEmailPattern(email)
  {
    var i, j :| 0 < i && i + 1 < j < |email| - 1 && email[i] == '@' && email[j] == '.'
               && (forall k | 0 <= k < |email| && k != i :: AddressChar(email[k]));
    var local, domain, top := email[..i], email[i + 1..j], email[j + 1..];
    CutAt(email, i, j);
    assert [email[i]] == "@" && [email[j]] == ".";
    assert email == local + "@" + domain + "." + top;
    assert AddressPart(local);
    assert forall k :: 0 <= k < |domain| ==> domain[k] == email[i + 1 + k];
    assert AddressPart(domain);
    assert forall k :: 0 <= k < |top| ==> top[k] == email[j + 1 + k];
    assert AddressPart(top);
  }

  /** An '@' and a later '.' at allowed positions, with address characters elsewhere, make a valid address. */
  lemma ValidAt(email: string, i: int, j: int)
    requires 0 < i && i + 1 < j < |email| - 1 && email[i] == '@' && email[j] == '.'
    requires forall k | 0 <= k < |email| && k != i :: AddressChar(email[k])
    ensures IsValidEmail(email)
  {
  }

  /** Every string of the pattern is accepted by the positional reading. */
  lemma EmailPatternSound(email: string)
    requires MatchesEmailPattern(email)
    ensures IsValidEmail(email)
  {
    var local, domain, top :| email == local + "@" + domain + "." + top
                              && AddressPart(local) && AddressPart(domain) && AddressPart(top);
    var withAt := local + "@";
    var withDomain := withAt + domain;
    var withDot := withDomain + ".";
    assert email == withDot + top;
    var i, j := |local|, |withDomain|;
    assert email[i] == withAt[i] == '@';
    assert email[j] == withDot[j] == '.';
    forall k | 0 <= k < |email| && k != i
      ensures AddressChar(email[k])
    {
      if k < i {
        assert email[k] == withDot[k] == withDomain[k] == withAt[k] == local[k];
      } else if i < k < j {
        assert email[k] == withDot[k] == withDomain[k] == domain[k - i - 1];
      } else if k > j {
        assert email[k] == top[k - j - 1];
      }
    }
    ValidAt(email, i, j);
  }

  /** The positional reading accepts exactly the strings of the pattern. */
  lemma EmailPattern(email: string)
    ensures IsValidEmail(email) <==> MatchesEmailPattern(email)
  {
    if IsValidEmail(email) {
      EmailPatternComplete(email);
    }
    if MatchesEmailPattern(email) {
      EmailPatternSound(email);
    }
  }

  /** An address the helper tests accept. */
  const ValidEmailExample: string := "test@example.com"

  /** Strings the helper tests reject. */
  const InvalidEmailExamples: seq<string> := ["invalid-email", "@domain.com", "user@", ""]

  /**
   * AddressPart, checked one character at a time: the recursive form evaluates on
   * a literal string, where the quantifier of AddressPart does not.
   */
  predicate AddressChars(s: string) {
    s == [] || (AddressChar(s[0]) && AddressChars(s[1..]))
  }

  lemma {:induction false} AddressCharsPart(s: string)
    requires |s| > 0 && AddressChars(s)
    ensures AddressPart(s)
  {
    if |s| > 1 {
      AddressCharsPart(s[1..]);
      assert forall k :: 1 <= k < |s| ==> s[k] == s[1..][k - 1];
    }
  }

  /** A string assembled from three address parts is a valid address. */
  lemma ValidFromParts(email: string, local: string, domain: string, top: string)
    requires email == local + "@" + domain + "." + top
    requires |local| > 0 && AddressChars(local)
    requires |domain| > 0 && AddressChars(domain)
    requires |top| > 0 && AddressChars(top)
    ensures IsValidEmail(email)
  {
    AddressCharsPart(local);
    AddressCharsPart(domain);
    AddressCharsPart(top);
    EmailPatternSound(email);
  }

  lemma ValidEmailAccepted()
    ensures IsValidEmail(ValidEmailExample)
  {
    ValidFromParts(ValidEmailExample, "test", "example", "com");
  }

  lemma InvalidEmailExample(k: nat)
    requires k < |InvalidEmailExamples|
    ensures !IsValidEmail(InvalidEmailExamples[k])
  {
    var email := InvalidEmailExamples[k];
    if k == 0 {
      assert forall i :: 0 <= i < |email| ==> email[i] != '@';
    } else if k == 1 {
      assert forall i :: 0 < i < |email| ==> email[i] != '@';
    }
  }
}
