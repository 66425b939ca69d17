/** The string checks: the personal-email blacklist and the field constraints
    the request validator enforces on `RegisterDto` and `CreateCompanyDto`.
    `@IsEmail` is a library predicate and stays a parameter (`isEmail`). */
module Validators {
  import opened Common

  // ---- isCompanyEmail -----------------------------------------------------

  const PrivateEmailDomains: seq<string> :=
    ["gmail.com", "yahoo.com", "hotmail.com", "outlook.com", "aol.com", "icloud.com", "live.com"]

  /** `s.split(sep)`: the fields between separators, empty ones included. */
  function Split(s: string, sep: char): (parts: seq<string>)
    ensures |parts| >= 1
  {
    if s == [] then [[]]
    else if s[0] == sep then [[]] + Split(s[1..], sep)
    else
      var rest := Split(s[1..], sep);
      [[s[0]] + rest[0]] + rest[1..]
  }

  /** `parts.join(sep)`. */
  function Join(parts: seq<string>, sep: char): string
    requires |parts| >= 1
  {
    if |parts| == 1 then parts[0] else parts[0] + [sep] + Join(parts[1..], sep)
  }

  /** No field contains the separator, and joining the fields back gives
      the original string. */
  lemma {:induction false} SplitJoin(s: string, sep: char)
    ensures forall i :: 0 <= i < |Split(s, sep)| ==> sep !in Split(s, sep)[i]
    ensures Join(Split(s, sep), sep) == s
  {
    if s != [] {
      SplitJoin(s[1..], sep);
      var rest := Split(s[1..], sep);
      if s[0] == sep {
        assert Split(s, sep)[1..] == rest;
      } else {
        var parts := Split(s, sep);
        assert parts[1..] == rest[1..];
        if |rest| == 1 {
          assert Join(parts, sep) == [s[0]] + rest[0];
        } else {
          assert Join(rest, sep) == rest[0] + [sep] + Join(rest[1..], sep);
        }
        assert s == [s[0]] + s[1..];
      }
    }
  }

  /** The first field of `a + sep + t` is `a` when `a` holds no separator;
      the remaining fields are those of `t`. */
  lemma {:induction false} SplitAfterField(a: string, sep: char, t: string)
    requires sep !in a
    ensures Split(a + [sep] + t, sep) == [a] + Split(t, sep)
  {
    if a != [] {
      SplitAfterField(a[1..], sep, t);
      assert (a + [sep] + t)[1..] == a[1..] + [sep] + t;
      assert [a[0]] + a[1..] == a;
    } else {
      assert (a + [sep] + t)[1..] == t;
    }
  }

  /** A string without the separator is one field. */
  lemma {:induction false} SplitWithout(s: string, sep: char)
    requires sep !in s
    ensures Split(s, sep) == [s]
  {
    if s != [] {
      SplitWithout(s[1..], sep);
      assert [s[0]] + s[1..] == s;
    }
  }

  /** A string splits into two fields or more exactly when it holds the
      separator. */
  lemma {:induction false} SplitCount(s: string, sep: char)
    ensures |Split(s, sep)| >= 2 <==> sep in s
  {
    if s != [] {
      SplitCount(s[1..], sep);
      assert sep in s <==> s[0] == sep || sep in s[1..];
    }
  }

  /** `email.split('@')[1]`: the text between the first and second `@`, or
      None (undefined) when there is no `@`. */
  function Domain(email: string): (r: Option<string>)
    ensures r.None? <==> '@' !in email
    ensures r.Some? ==> '@' !in r.value
  {
    SplitCount(email, '@');
    SplitJoin(email, '@');
    var parts := Split(email, '@');
    if |parts| >= 2 then Some(parts[1]) else None
  }

  /** `isCompanyEmail`: the lower-cased domain is non-empty and not one of
      the listed personal-mail providers. */
  function IsCompanyEmail(email: string): (r: bool)
    ensures r ==> Domain(email).Some? && Domain(email).value != ""
  {
    var domain := Domain(email);
    domain.Some? && Lower(domain.value) != "" && Lower(domain.value) !in PrivateEmailDomains
  }

  /** The domain is the second `@`-field, whatever follows it. */
  lemma DomainIsSecondField(local: string, domain: string, rest: string)
    requires '@' !in local && '@' !in domain
    requires rest == [] || rest[0] == '@'
    ensures Domain(local + "@" + domain + rest) == Some(domain)
  {
    SplitAfterField(local, '@', domain + rest);
    assert local + "@" + domain + rest == local + ['@'] + (domain + rest);
    if rest == [] {
      SplitWithout(domain, '@');
      assert domain + rest == domain;
    } else {
      SplitAfterField(domain, '@', rest[1..]);
      assert domain + rest == domain + ['@'] + rest[1..];
    }
  }

  /** Without an `@` there is no domain, so the address is refused. */
  lemma NoAtIsRefused(email: string)
    requires '@' !in email
    ensures Domain(email) == None && !IsCompanyEmail(email)
  {
    SplitWithout(email, '@');
  }

  /** For every address whose first `@`-field is `local`: it is accepted
      exactly when the next field is non-empty and, lower-cased, not one of
      the listed providers. */
  lemma IsCompanyEmailIff(local: string, domain: string, rest: string)
    requires '@' !in local && '@' !in domain
    requires rest == [] || rest[0] == '@'
    ensures IsCompanyEmail(local + "@" + domain + rest)
        <==> domain != [] && Lower(domain) !in PrivateEmailDomains
  {
    DomainIsSecondField(local, domain, rest);
  }

  /** An `@` with nothing after it leaves an empty domain. */
  lemma EmptyDomainRefused()
    ensures !IsCompanyEmail("user@")
  {
    IsCompanyEmailIff("user", "", "");
    assert "user@" == "user" + "@" + "" + "";
  }

  /** The domain is lower-cased before the comparison. */
  lemma UpperCaseProviderRefused()
    ensures !IsCompanyEmail("A@GMAIL.COM")
  {
    IsCompanyEmailIff("A", "GMAIL.COM", "");
    assert "A@GMAIL.COM" == "A" + "@" + "GMAIL.COM" + "";
    assert Lower("GMAIL.COM") == "gmail.com";
  }

  /** Only the field after the first `@` is checked. */
  lemma SecondAtIgnored()
    ensures IsCompanyEmail("x@y@gmail.com")
  {
    IsCompanyEmailIff("x", "y", "@gmail.com");
    assert "x@y@gmail.com" == "x" + "@" + "y" + "@gmail.com";
    assert forall k :: 0 <= k < |PrivateEmailDomains| ==> |PrivateEmailDomains[k]| != 1;
  }

  /** The match is exact: a sub-domain of a provider passes. */
  lemma ProviderSubdomainAdmitted()
    ensures IsCompanyEmail("a@mail.gmail.com")
  {
    IsCompanyEmailIff("a", "mail.gmail.com", "");
    assert "a@mail.gmail.com" == "a" + "@" + "mail.gmail.com" + "";
    assert forall k :: 0 <= k < |PrivateEmailDomains| ==> |PrivateEmailDomains[k]| != 14;
  }

  // ---- RegisterDto ----------------------------------------------------------

  datatype RegisterDto = RegisterDto(
    email: string,
    password: string,
    firstName: string,
    lastName: Option<string>,
    phoneNumber: Option<string>,
    company: Option<string>,
    role: string,
    permission: Option<string>)

  /** `/^\+?\d{10,15}$/`: an optional plus, then 10 to 15 ASCII digits. */
  predicate PhonePattern(s: string): (b: bool)
    ensures b ==> 10 <= |s| <= 16
  {
    var digits := if |s| > 0 && s[0] == '+' then s[1..] else s;
    10 <= |digits| <= 15 && AllDigits(digits)
  }

  predicate MinLength(s: string, n: nat) {
    |s| >= n
  }

  /** The decorators of `RegisterDto`. The string-typed fields are strings
      by construction; `isEmail` stands for `@IsEmail`. */
  predicate ValidRegisterDto(dto: RegisterDto, isEmail: string -> bool): (b: bool)
    ensures b ==> |dto.password| >= 8 && |dto.firstName| >= 2
    ensures b && dto.phoneNumber.Some? ==> 10 <= |dto.phoneNumber.value| <= 16
  {
    && isEmail(dto.email)
    && MinLength(dto.password, 8)
    && MinLength(dto.firstName, 2)
    && (dto.lastName.Some? ==> MinLength(dto.lastName.value, 2))
    && (dto.phoneNumber.Some? ==> PhonePattern(dto.phoneNumber.value))
  }

  /** A phone number the pattern admits is 10 to 16 characters long and
      has a digit everywhere but possibly a leading `+`. */
  lemma PhoneShape(s: string)
    requires PhonePattern(s)
    ensures 10 <= |s| <= 16
    ensures forall i :: 0 < i < |s| ==> IsDigit(s[i])
    ensures IsDigit(s[0]) || s[0] == '+'
  {
    if s[0] == '+' {
      assert forall i :: 0 < i < |s| ==> s[i] == s[1..][i - 1];
    }
  }

  lemma PhoneExamples()
    ensures PhonePattern("+2348123456789")
    ensures PhonePattern("08012345678")
    ensures !PhonePattern("12345")
    ensures !PhonePattern("+")
    ensures !PhonePattern("+234-812-345-6789")
    ensures !PhonePattern("1234567890123456")
  {
    assert "+2348123456789"[1..] == "2348123456789";
    assert "+234-812-345-6789"[1..][3] == '-';
  }

  /** The optional fields constrain only when present. */
  lemma RegisterDtoOptionalFields(dto: RegisterDto, isEmail: string -> bool)
    requires isEmail(dto.email) && |dto.password| >= 8 && |dto.firstName| >= 2
    ensures ValidRegisterDto(dto.(lastName := None, phoneNumber := None), isEmail)
    ensures !ValidRegisterDto(dto.(lastName := Some("X")), isEmail)
    ensures !ValidRegisterDto(dto.(phoneNumber := Some("12345")), isEmail)
  {
    PhoneExamples();
  }

  // ---- CreateCompanyDto -----------------------------------------------------

  datatype CreateCompanyDto = CreateCompanyDto(
    email: string,
    password: string,
    firstName: string,
    lastName: string,
    companyName: string,
    registrationNumber: string,
    industryType: string,
    address: string,
    contactEmail: string,
    contactPhone: string)

  /** `/^(?=.*[a-z])(?=.*[A-Z])(?=.*\d)[a-zA-Z\d]{8,}$/`: eight or more ASCII
      letters and digits, with a lower-case letter, an upper-case letter and
      a digit among them. */
  predicate PasswordPattern(p: string): (b: bool)
    ensures b ==> |p| >= 8 && exists i :: 0 <= i < |p| && IsDigit(p[i])
  {
    && |p| >= 8
    && (forall i :: 0 <= i < |p| ==> IsLetter(p[i]) || IsDigit(p[i]))
    && (exists i :: 0 <= i < |p| && IsLowerLetter(p[i]))
    && (exists i :: 0 <= i < |p| && IsUpperLetter(p[i]))
    && (exists i :: 0 <= i < |p| && IsDigit(p[i]))
  }

  /** `/^[A-Za-z0-9-]+$/`. */
  predicate RegistrationNumberPattern(s: string): (b: bool)
    ensures b ==> s != [] && ' ' !in s
  {
    |s| >= 1 && forall i :: 0 <= i < |s| ==> IsLetter(s[i]) || IsDigit(s[i]) || s[i] == '-'
  }

  /** The decorators of `CreateCompanyDto`; `contact_email` is only checked
      to be a string. */
  predicate ValidCreateCompanyDto(dto: CreateCompanyDto, isEmail: string -> bool): (b: bool)
    ensures b ==> |dto.password| >= 8 && 10 <= |dto.contactPhone| <= 16 && |dto.address| >= 5
  {
    && isEmail(dto.email)
    && MinLength(dto.password, 8)
    && PasswordPattern(dto.password)
    && MinLength(dto.firstName, 2)
    && MinLength(dto.lastName, 2)
    && MinLength(dto.companyName, 2)
    && RegistrationNumberPattern(dto.registrationNumber)
    && MinLength(dto.industryType, 2)
    && MinLength(dto.address, 5)
    && PhonePattern(dto.contactPhone)
  }

  /** A password the pattern admits holds no character outside [A-Za-z0-9],
      so a symbol anywhere refuses it, however strong otherwise. */
  lemma PasswordRejectsSymbols(p: string, i: int)
    requires 0 <= i < |p| && !IsLetter(p[i]) && !IsDigit(p[i])
    ensures !PasswordPattern(p)
  {
  }

  lemma PasswordExamples()
    ensures PasswordPattern("Password123")
    ensures !PasswordPattern("Password123!")
    ensures !PasswordPattern("password123")
    ensures !PasswordPattern("Pass123")
  {
    assert IsLowerLetter("Password123"[1]) && IsUpperLetter("Password123"[0]);
    assert IsDigit("Password123"[8]);
    assert !IsLetter("Password123!"[11]) && !IsDigit("Password123!"[11]);
    assert forall i :: 0 <= i < |"password123"| ==> !IsUpperLetter("password123"[i]);
  }

  lemma RegistrationNumberExamples()
    ensures RegistrationNumberPattern("RC123456")
    ensures RegistrationNumberPattern("RC-12-3")
    ensures !RegistrationNumberPattern("")
    ensures !RegistrationNumberPattern("RC 123")
  {
    assert "RC 123"[2] == ' ';
  }

  /** The contact email needs no `@`: `CreateCompanyDto` does not check its
      format, while its phone must still match. */
  lemma ContactEmailUnchecked(dto: CreateCompanyDto, isEmail: string -> bool)
    requires ValidCreateCompanyDto(dto, isEmail)
    ensures ValidCreateCompanyDto(dto.(contactEmail := "not an address"), isEmail)
    ensures !ValidCreateCompanyDto(dto.(contactPhone := "12345"), isEmail)
  {
    PhoneExamples();
  }
}
