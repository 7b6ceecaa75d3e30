/** `validateStep`: the per-step field checks of the form wizard. */
module Validation {
  import opened JsText
  import opened FormRecord

  const NameRequired := "Name is required"
  const EmailRequired := "Email is required"
  const EmailInvalid := "Email is invalid"
  const PhoneRequired := "Phone is required"
  const PhoneInvalid := "Phone number is invalid"
  const AddressLine1Required := "Address Line 1 is required"
  const CityRequired := "City is required"
  const StateRequired := "State is required"
  const ZipCodeRequired := "Zip Code is required"
  const ZipCodeInvalid := "Zip Code is invalid"

  /** The regular expression `/\S+@\S+\.\S+/` matched at an '@' at index
      `at` and a '.' at index `dot`: one non-space character right before
      the '@', a non-empty run of non-space characters between the two,
      and one non-space character right after the '.'. The expression is
      not anchored, so nothing else of `s` matters. */
  predicate EmailMatchAt(s: string, at: int, dot: int): (b: bool)
    requires 0 < at && at + 1 < dot && dot + 1 < |s|
    ensures b ==> NoSpace(s[at - 1..dot + 2])
  {
    && s[at] == '@' && s[dot] == '.'
    && !IsJsSpace(s[at - 1]) && !IsJsSpace(s[dot + 1])
    && forall k | at < k < dot :: !IsJsSpace(s[k])
  }

  /** `/\S+@\S+\.\S+/.test(s)`. */
  predicate EmailPattern(s: string): (b: bool)
    ensures b ==> |s| >= 5 && '@' in s && '.' in s
  {
    exists at, dot | 0 < at && at + 1 < dot && dot + 1 < |s| :: EmailMatchAt(s, at, dot)
  }

  /** The fields whose inputs step `stepNumber` checks. */
  function StepFields(stepNumber: int): set<Field> {
    if stepNumber == 1 then {Name, Email, Phone}
    else if stepNumber == 2 then {AddressLine1, City, State, ZipCode}
    else {}
  }

  /** What a step demands of the record, field by field: the reference
      against which `Validate` is proved. `numeric` stands for
      `!isNaN(Number(_))`. */
  predicate StepComplete(stepNumber: int, d: FormData, numeric: string -> bool): (b: bool)
    ensures b ==> forall f | f in StepFields(stepNumber) :: d.Get(f) != ""
  {
    if stepNumber == 1 then
      && d.name != ""
      && EmailPattern(d.email)
      && JsLength(d.phone) >= 10 && numeric(d.phone)
    else if stepNumber == 2 then
      && d.addressLine1 != "" && d.city != "" && d.state != ""
      && JsLength(d.zipCode) == 6 && numeric(d.zipCode)
    else true
  }

  /** `validateStep(stepNumber)` without its `setErrors`: the error map
      built by the source's sequence of checks, where a later assignment
      to a key replaces an earlier one. */
  function Validate(stepNumber: int, d: FormData, numeric: string -> bool): (errs: map<Field, string>)
    ensures errs.Keys <= StepFields(stepNumber)
    ensures errs == map[] <==> StepComplete(stepNumber, d, numeric)
  {
    if stepNumber == 1 then
      var e0: map<Field, string> := map[];
      var e1 := if d.name == "" then e0[Name := NameRequired] else e0;
      var e2 :=
        if d.email == "" then e1[Email := EmailRequired]
        else if !EmailPattern(d.email) then e1[Email := EmailInvalid]
        else e1;
      var e3 := if d.phone == "" then e2[Phone := PhoneRequired] else e2;
      var e4 := if JsLength(d.phone) < 10 || !numeric(d.phone) then e3[Phone := PhoneInvalid] else e3;
      assert Name in e4 <==> d.name == "";
      assert Email in e4 <==> !EmailPattern(d.email);
      assert Phone in e4 <==> JsLength(d.phone) < 10 || !numeric(d.phone);
      e4
    else if stepNumber == 2 then
      var e0: map<Field, string> := map[];
      var e1 := if d.addressLine1 == "" then e0[AddressLine1 := AddressLine1Required] else e0;
      var e2 := if d.city == "" then e1[City := CityRequired] else e1;
      var e3 := if d.state == "" then e2[State := StateRequired] else e2;
      var e4 := if d.zipCode == "" then e3[ZipCode := ZipCodeRequired] else e3;
      var e5 :=
        if !numeric(d.zipCode) || JsLength(d.zipCode) != 6 then e4[ZipCode := ZipCodeInvalid] else e4;
      assert AddressLine1 in e5 <==> d.addressLine1 == "";
      assert City in e5 <==> d.city == "";
      assert State in e5 <==> d.state == "";
      assert ZipCode in e5 <==> !numeric(d.zipCode) || JsLength(d.zipCode) != 6;
      e5
    else
      map[]
  }

  /** Step 1, field by field: which keys appear and with which message. */
  lemma Step1Rules(d: FormData, numeric: string -> bool)
    ensures var e := Validate(1, d, numeric);
      && (Name in e <==> d.name == "")
      && (Name in e ==> e[Name] == NameRequired)
      && (d.email == "" ==> Email in e && e[Email] == EmailRequired)
      && (d.email != "" && !EmailPattern(d.email) ==> Email in e && e[Email] == EmailInvalid)
      && (EmailPattern(d.email) ==> Email !in e)
      && (Phone in e <==> d.phone == "" || JsLength(d.phone) < 10 || !numeric(d.phone))
      && (Phone in e ==> e[Phone] == PhoneInvalid)
  {
  }

  /** Step 2, field by field; `addressLine2` is never checked. */
  lemma Step2Rules(d: FormData, numeric: string -> bool)
    ensures var e := Validate(2, d, numeric);
      && (AddressLine1 in e <==> d.addressLine1 == "")
      && (AddressLine1 in e ==> e[AddressLine1] == AddressLine1Required)
      && (City in e <==> d.city == "")
      && (City in e ==> e[City] == CityRequired)
      && (State in e <==> d.state == "")
      && (State in e ==> e[State] == StateRequired)
      && (ZipCode in e <==> !numeric(d.zipCode) || JsLength(d.zipCode) != 6)
      && (ZipCode in e ==> e[ZipCode] == ZipCodeInvalid)
      && AddressLine2 !in e
  {
  }

  /** Because the length checks come after them and catch the empty string,
      "Phone is required" and "Zip Code is required" are always overwritten:
      no step ever reports them. */
  lemma RequiredPhoneAndZipNeverShown(stepNumber: int, d: FormData, numeric: string -> bool)
    ensures PhoneRequired !in Validate(stepNumber, d, numeric).Values
    ensures ZipCodeRequired !in Validate(stepNumber, d, numeric).Values
  {
  }

  /** The review step, and any step number other than 1 and 2, checks nothing. */
  lemma OtherStepsPass(stepNumber: int, d: FormData, numeric: string -> bool)
    requires stepNumber != 1 && stepNumber != 2
    ensures Validate(stepNumber, d, numeric) == map[]
  {
  }

  /** A step's verdict depends only on the fields that step checks. */
  lemma ValidateFrame(stepNumber: int, d: FormData, d': FormData, numeric: string -> bool)
    requires forall f | f in StepFields(stepNumber) :: d.Get(f) == d'.Get(f)
    ensures Validate(stepNumber, d, numeric) == Validate(stepNumber, d', numeric)
  {
  }

  // ----- The regular expression as a substring search -----

  /** `s` is `p + l + "@" + d + "." + t + q` where `l`, `d` and `t` are the
      parts matched by the three `\S+` of the email expression. */
  ghost predicate EmailSplit(s: string, p: string, l: string, d: string, t: string, q: string) {
    && s == p + l + "@" + d + "." + t + q
    && l != [] && d != [] && t != []
    && NoSpace(l) && NoSpace(d) && NoSpace(t)
  }

  /** What `test` of an unanchored expression means: some substring matches. */
  ghost predicate RegexFinds(s: string) {
    exists p, l, d, t, q :: EmailSplit(s, p, l, d, t, q)
  }

  /** An index match yields a matching substring. */
  lemma MatchAtGivesSplit(s: string, at: int, dot: int)
    requires 0 < at && at + 1 < dot && dot + 1 < |s|
    requires EmailMatchAt(s, at, dot)
    ensures EmailSplit(s, s[..at - 1], [s[at - 1]], s[at + 1..dot], [s[dot + 1]], s[dot + 2..])
  {
    var p, l, d, t, q := s[..at - 1], [s[at - 1]], s[at + 1..dot], [s[dot + 1]], s[dot + 2..];
    var r := p + l + "@" + d + "." + t + q;
    assert |r| == |s|;
    forall k | 0 <= k < |s| ensures r[k] == s[k] {
      if k < at - 1 {
      } else if k == at - 1 {
      } else if k == at {
      } else if k < dot {
        assert r[k] == d[k - at - 1];
      } else if k == dot {
      } else if k == dot + 1 {
      } else {
        assert r[k] == q[k - dot - 2];
      }
    }
    assert r == s;
    assert NoSpace(d) by {
      forall i | 0 <= i < |d| ensures !IsJsSpace(d[i]) {
        assert d[i] == s[at + 1 + i];
      }
    }
  }

  /** A matching substring yields an index match. */
  lemma SplitGivesMatchAt(s: string, p: string, l: string, d: string, t: string, q: string)
    requires EmailSplit(s, p, l, d, t, q)
    ensures 0 < |p| + |l| && |p| + |l| + 1 < |p| + |l| + 1 + |d| < |s| - 1
    ensures EmailMatchAt(s, |p| + |l|, |p| + |l| + 1 + |d|)
  {
    var at := |p| + |l|;
    var dot := at + 1 + |d|;
    assert s[at - 1] == l[|l| - 1];
    assert s[at] == '@';
    assert s[dot] == '.';
    assert s[dot + 1] == t[0];
    forall k | at < k < dot ensures !IsJsSpace(s[k]) {
      assert s[k] == d[k - at - 1];
    }
  }

  /** The index formulation of the email test is exactly a substring search
      for `\S+@\S+\.\S+`. */
  lemma EmailPatternIsSearch(s: string)
    ensures EmailPattern(s) <==> RegexFinds(s)
  {
    if EmailPattern(s) {
      var at, dot :| 0 < at && at + 1 < dot && dot + 1 < |s| && EmailMatchAt(s, at, dot);
      MatchAtGivesSplit(s, at, dot);
    }
    if RegexFinds(s) {
      var p, l, d, t, q :| EmailSplit(s, p, l, d, t, q);
      SplitGivesMatchAt(s, p, l, d, t, q);
    }
  }

  /** An address `local@domain.tld` whose three parts are non-empty and free
      of white space passes the email test. */
  lemma AddressShapePasses(local: string, domain: string, tld: string)
    requires local != [] && domain != [] && tld != []
    requires NoSpace(local) && NoSpace(domain) && NoSpace(tld)
    ensures EmailPattern(local + "@" + domain + "." + tld)
  {
    var s := local + "@" + domain + "." + tld;
    assert s == [] + local + "@" + domain + "." + tld + [];
    assert EmailSplit(s, [], local, domain, tld, []);
    SplitGivesMatchAt(s, [], local, domain, tld, []);
  }

  /** Text without an '@' fails the email test. */
  lemma NoAtFails(s: string)
    requires forall i | 0 <= i < |s| :: s[i] != '@'
    ensures !EmailPattern(s)
  {
  }

  // ----- Worked examples -----

  /** A record whose step-1 fields are "", "a@b.com" and "1234567890". */
  lemma ExampleMissingName(d: FormData, numeric: string -> bool)
    requires DigitsAreNumeric(numeric)
    requires d.name == "" && d.email == "a@b.com" && d.phone == "1234567890"
    ensures Validate(1, d, numeric) == map[Name := NameRequired]
  {
    assert EmailMatchAt(d.email, 1, 3);
    assert IsDigits(d.phone);
    DigitsAreBmpText(d.phone);
  }

  /** "bad-email" has no '@', so only the email is reported. */
  lemma ExampleBadEmail(d: FormData, numeric: string -> bool)
    requires DigitsAreNumeric(numeric)
    requires d.name == "A" && d.email == "bad-email" && d.phone == "1234567890"
    ensures Validate(1, d, numeric) == map[Email := EmailInvalid]
  {
    NoAtFails(d.email);
    assert IsDigits(d.phone);
    DigitsAreBmpText(d.phone);
  }

  /** A five-digit zip code is rejected whatever the numeric test says. */
  lemma ExampleShortZip(d: FormData, numeric: string -> bool)
    requires d.addressLine1 == "x" && d.city == "y" && d.state == "z" && d.zipCode == "12345"
    ensures Validate(2, d, numeric) == map[ZipCode := ZipCodeInvalid]
  {
    assert IsDigits(d.zipCode);
    DigitsAreBmpText(d.zipCode);
  }

  /** An empty phone is reported as invalid, not as missing. */
  lemma ExampleEmptyPhone(d: FormData, numeric: string -> bool)
    requires d.phone == ""
    ensures Validate(1, d, numeric)[Phone] == PhoneInvalid
  {
  }
}
