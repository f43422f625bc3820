/** The e-mail sign-up form's checks (`EmailSignUpValidator`). */
module EmailValidator {
  import opened Strings

  /**
   * After trimming whitespace and newlines, the address has an '@' that is not
   * its first character, and a '.' somewhere after the first '@'.
   */
  function IsValidEmail(email: string): (r: bool)
    ensures var t := TrimWhitespace(email);
      r <==> exists i :: 0 < i < |t| && t[i] == '@' && '@' !in t[..i] && '.' in t[i + 1..]
  {
    var trimmed := TrimWhitespace(email);
    var at := FirstIndex(trimmed, '@');
    var r := at > 0 && '.' in trimmed[at + 1..];
    FirstAtUnique(trimmed, at);
    r
  }

  /** The first '@' is the only '@' with none before it. */
  lemma FirstAtUnique(t: string, at: int)
    requires at == FirstIndex(t, '@')
    ensures forall i :: 0 <= i < |t| && t[i] == '@' && '@' !in t[..i] ==> i == at
  {
  }

  /** The form is valid when the address is and both passwords are present and equal. */
  function IsFormValid(email: string, password: string, confirmPassword: string): (r: bool)
    ensures r <==> IsValidEmail(email) && password != "" && password == confirmPassword
  {
    IsValidEmail(email) && password != [] && confirmPassword != [] && password == confirmPassword
  }

  /** An address `local@domain` with no '@' in `local`, no surrounding whitespace and a '.' in `domain` is accepted. */
  lemma AcceptedShape(local: string, domain: string)
    requires local != [] && !IsWhitespace(local[0]) && '@' !in local
    requires domain != [] && !IsWhitespace(domain[|domain| - 1]) && '.' in domain
    ensures IsValidEmail(local + "@" + domain)
  {
    var s := local + "@" + domain;
    TrimUntrimmed(s, IsWhitespace);
    assert s[..|local|] == local;
    assert s[|local| + 1..] == domain;
  }

  /** Without a '.' after the first '@' the address is refused. */
  lemma NoDotInDomainRefused(local: string, domain: string)
    requires local != [] && !IsWhitespace(local[0]) && '@' !in local
    requires domain != [] && !IsWhitespace(domain[|domain| - 1]) && '.' !in domain
    ensures !IsValidEmail(local + "@" + domain)
  {
    var s := local + "@" + domain;
    TrimUntrimmed(s, IsWhitespace);
    assert s[..|local|] == local;
    assert s[|local| + 1..] == domain;
    FirstAtUnique(s, FirstIndex(s, '@'));
  }

  /** Without an '@' the address is refused, whatever surrounds it. */
  lemma NoAtRefused(s: string)
    requires '@' !in s
    ensures !IsValidEmail(s)
  {
    var t := TrimWhitespace(s);
    assert t == s[TrimOffset(s, IsWhitespace)..TrimOffset(s, IsWhitespace) + |t|];
    assert '@' !in t;
  }

  /** The unit tests' addresses: no '@', no '.' after the '@', and a good one. */
  lemma EmailWithoutAt()
    ensures !IsValidEmail("userexample.com")
  {
    var s := "userexample.com";
    assert forall i :: 0 <= i < |s| ==> s[i] != '@';
    NoAtRefused(s);
  }

  lemma EmailWithoutDot()
    ensures !IsValidEmail("user" + "@" + "examplecom")
  {
    NoDotInDomainRefused("user", "examplecom");
  }

  lemma EmailAccepted()
    ensures IsValidEmail("user" + "@" + "example.com")
  {
    AcceptedShape("user", "example.com");
  }

  /** The unit tests' password pairs: a mismatch fails, a match passes. */
  lemma FormMismatchRefused()
    ensures !IsFormValid("user" + "@" + "example.com", "Password1234", "Password0000")
  {
    assert "Password1234"[8] != "Password0000"[8];
  }

  lemma FormMatchAccepted()
    ensures IsFormValid("user" + "@" + "example.com", "Password1234", "Password1234")
  {
    EmailAccepted();
  }
}
