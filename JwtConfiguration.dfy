/** The `Jwt` configuration section and its start-up validation
    (src/Configurations/JwtConfiguration.cs). */
module JwtConfiguration {
  import opened Results
  import opened Text

  /** The three bound properties. They are non-nullable strings in C#, but
      configuration binding and object initialisers can store null in them,
      so each is an optional string here. */
  datatype JwtConfig = JwtConfig(secret: Option<string>, issuer: Option<string>, audience: Option<string>)

  /** The fields in the order Validate inspects them. */
  datatype Field = Secret | Issuer | Audience

  function FieldValue(c: JwtConfig, f: Field): Option<string> {
    match f
    case Secret => c.secret
    case Issuer => c.issuer
    case Audience => c.audience
  }

  /** Position of a field in the validation order. */
  function Rank(f: Field): nat {
    match f
    case Secret => 0
    case Issuer => 1
    case Audience => 2
  }

  function RequiredMessage(f: Field): string {
    match f
    case Secret => "JWT Secret is required"
    case Issuer => "JWT Issuer is required"
    case Audience => "JWT Audience is required"
  }

  predicate IsBlank(c: JwtConfig, f: Field) {
    IsNullOrWhiteSpace(FieldValue(c, f))
  }

  /** `new JwtConfiguration()`: every property starts as string.Empty. */
  function Default(): JwtConfig {
    JwtConfig(Some(""), Some(""), Some(""))
  }

  /** JwtConfiguration.Validate: Secret, then Issuer, then Audience; the
      first blank one throws with its own message. */
  function Validate(c: JwtConfig): (r: Outcome)
    ensures r == Pass <==> !IsBlank(c, Secret) && !IsBlank(c, Issuer) && !IsBlank(c, Audience)
    ensures r.Fail? ==> exists f :: IsBlank(c, f) && r == Fail(RequiredMessage(f))
  {
    if IsNullOrWhiteSpace(c.secret) then Fail(RequiredMessage(Secret))
    else if IsNullOrWhiteSpace(c.issuer) then Fail(RequiredMessage(Issuer))
    else if IsNullOrWhiteSpace(c.audience) then Fail(RequiredMessage(Audience))
    else Pass
  }

  /** Distinct fields are reported with distinct messages, so a message
      identifies the field that failed. */
  lemma RequiredMessageInjective(f: Field, g: Field)
    ensures RequiredMessage(f) == RequiredMessage(g) ==> f == g
  {
    if f != g {
      assert RequiredMessage(f)[4] != RequiredMessage(g)[4];
    }
  }

  /** Validate reports field f exactly when f is blank and every field
      checked before it is not: the first blank field decides the message. */
  lemma ValidateReportsFirstBlankField(c: JwtConfig, f: Field)
    ensures Validate(c) == Fail(RequiredMessage(f))
        <==> IsBlank(c, f) && forall g :: Rank(g) < Rank(f) ==> !IsBlank(c, g)
  {
    forall g ensures Validate(c) == Fail(RequiredMessage(g)) ==> Validate(c) == Fail(RequiredMessage(f)) ==> g == f {
      RequiredMessageInjective(f, g);
    }
    if IsBlank(c, f) && forall g :: Rank(g) < Rank(f) ==> !IsBlank(c, g) {
      match f
      case Secret =>
      case Issuer => assert !IsBlank(c, Secret);
      case Audience => assert !IsBlank(c, Secret) && !IsBlank(c, Issuer);
    }
    if Validate(c) == Fail(RequiredMessage(f)) {
      if IsNullOrWhiteSpace(c.secret) {
        RequiredMessageInjective(f, Secret);
      } else if IsNullOrWhiteSpace(c.issuer) {
        RequiredMessageInjective(f, Issuer);
      } else {
        RequiredMessageInjective(f, Audience);
      }
    }
  }

  /** A fresh configuration has all three properties empty, so validating it
      fails on the first field checked. */
  lemma DefaultFailsOnSecret()
    ensures Default().secret == Some("") && Default().issuer == Some("") && Default().audience == Some("")
    ensures Validate(Default()) == Fail("JWT Secret is required")
  {
  }
}
