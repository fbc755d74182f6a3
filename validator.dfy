/**
 * The input validators: the e-mail and password tests, and one validator per
 * resource kind that returns the list of violated constraints, in the order
 * the checks are made.
 */
module Validator {
  import opened Wrappers
  import opened Strings
  import opened JsValues

  // ---------------------------------------------------------------------------
  // isValidEmail: /^[^\s@]+@[^\s@]+\.[^\s@]+$/
  // ---------------------------------------------------------------------------

  /** The character class `[^\s@]`. */
  predicate EmailChar(c: char) {
    !IsWhitespace(c) && c != '@'
  }

  predicate AllEmailChars(s: string) {
    forall k :: 0 <= k < |s| ==> EmailChar(s[k])
  }

  /**
   * The language of the e-mail pattern: `A@B.C` where A, B and C are
   * non-empty and contain neither whitespace nor '@'.
   */
  ghost predicate EmailShape(s: string) {
    exists i, j ::
      && 0 < i && i + 1 < j && j + 1 < |s|
      && s[i] == '@' && s[j] == '.'
      && AllEmailChars(s[..i]) && AllEmailChars(s[i + 1..j]) && AllEmailChars(s[j + 1..])
  }

  /** A '.' with at least one character on each side. */
  predicate HasInnerDot(d: string) {
    exists j :: 0 < j < |d| - 1 && d[j] == '.'
  }

  /**
   * How the pattern is matched: the text before the first '@' is a run of
   * `[^\s@]`, and the text after it is a run of `[^\s@]` with an inner dot.
   */
  predicate EmailText(s: string) {
    var local := TakeUntil(s, '@');
    && 0 < |local| < |s|
    && AllEmailChars(local)
    && AllEmailChars(s[|local| + 1..])
    && HasInnerDot(s[|local| + 1..])
  }

  /** `isValidEmail(email)`. */
  function IsValidEmail(email: JsValue): bool {
    email.Str? && EmailText(email.s)
  }

  /** The first separator found by TakeUntil is the one at `i` when none comes before it. */
  lemma TakeUntilStopsAt(s: string, sep: char, i: nat)
    requires i < |s| && s[i] == sep && sep !in s[..i]
    ensures TakeUntil(s, sep) == s[..i]
  {
  }

  /** A run of `[^\s@]` with a '.' at `j` is the two runs on either side of it. */
  lemma EmailCharsAroundDot(d: string, j: nat)
    requires j < |d| && d[j] == '.'
    ensures AllEmailChars(d) <==> AllEmailChars(d[..j]) && AllEmailChars(d[j + 1..])
  {
    if AllEmailChars(d[..j]) && AllEmailChars(d[j + 1..]) {
      forall k | 0 <= k < |d| ensures EmailChar(d[k]) {
        if k < j {
          assert d[k] == d[..j][k];
        } else if k > j {
          assert d[k] == d[j + 1..][k - j - 1];
        }
      }
    }
  }

  /** The text after the '@' at `i`, with its dot at `j`, read both ways. */
  lemma DomainParts(s: string, i: nat, j: nat)
    requires i < j < |s|
    ensures s[i + 1..][..j - (i + 1)] == s[i + 1..j]
    ensures s[i + 1..][j - (i + 1) + 1..] == s[j + 1..]
    ensures s[i + 1..][j - (i + 1)] == s[j]
  {
  }

  /** An accepted string has the pattern's shape. */
  lemma EmailTextHasShape(s: string)
    requires EmailText(s)
    ensures EmailShape(s)
  {
    var i := |TakeUntil(s, '@')|;
    var d := s[i + 1..];
    var j' :| 0 < j' < |d| - 1 && d[j'] == '.';
    var j := i + 1 + j';
    DomainParts(s, i, j);
    EmailCharsAroundDot(d, j');
    assert s[..i] == TakeUntil(s, '@');
    assert s[i] == '@';
  }

  /** A string of the pattern's shape is accepted. */
  lemma ShapeIsEmailText(s: string, i: nat, j: nat)
    requires 0 < i && i + 1 < j && j + 1 < |s|
    requires s[i] == '@' && s[j] == '.'
    requires AllEmailChars(s[..i]) && AllEmailChars(s[i + 1..j]) && AllEmailChars(s[j + 1..])
    ensures EmailText(s)
  {
    assert '@' !in s[..i];
    TakeUntilStopsAt(s, '@', i);
    DomainParts(s, i, j);
    EmailCharsAroundDot(s[i + 1..], j - (i + 1));
  }

  /** The matcher accepts exactly the strings of the pattern's language. */
  lemma EmailTextIsShape(s: string)
    ensures EmailText(s) <==> EmailShape(s)
  {
    if EmailText(s) {
      EmailTextHasShape(s);
    }
    if EmailShape(s) {
      var i, j :|
        && 0 < i && i + 1 < j && j + 1 < |s|
        && s[i] == '@' && s[j] == '.'
        && AllEmailChars(s[..i]) && AllEmailChars(s[i + 1..j]) && AllEmailChars(s[j + 1..]);
      ShapeIsEmailText(s, i, j);
    }
  }

  /** `isValidEmail` is false for every non-string and, on strings, accepts exactly `A@B.C`. */
  lemma IsValidEmailMeaning(email: JsValue)
    ensures IsValidEmail(email) <==> email.Str? && EmailShape(email.s)
  {
    if email.Str? {
      EmailTextIsShape(email.s);
    }
  }

  lemma {:induction false} NoAtInEmailChars(s: string)
    requires AllEmailChars(s)
    ensures multiset(s)['@'] == 0
  {
    if |s| > 0 {
      assert s == [s[0]] + s[1..];
      NoAtInEmailChars(s[1..]);
    }
  }

  /** An accepted e-mail address contains exactly one '@'. */
  lemma ValidEmailHasOneAt(email: JsValue)
    requires IsValidEmail(email)
    ensures multiset(email.s)['@'] == 1
  {
    var s := email.s;
    var local := TakeUntil(s, '@');
    var i := |local|;
    var d := s[i + 1..];
    NoAtInEmailChars(local);
    NoAtInEmailChars(d);
    assert s == local + [s[i]] + d;
    assert multiset(s) == multiset(local) + multiset{s[i]} + multiset(d);
  }

  // ---------------------------------------------------------------------------
  // isStrongPassword: /^(?=.*[a-z])(?=.*[A-Z])(?=.*\d).{8,}$/
  // ---------------------------------------------------------------------------

  const MinPasswordLength := 8

  predicate IsLowerAscii(c: char) { 'a' <= c <= 'z' }
  predicate IsUpperAscii(c: char) { 'A' <= c <= 'Z' }
  predicate IsDigit(c: char) { '0' <= c <= '9' }

  predicate HasLower(s: string) { exists k :: 0 <= k < |s| && IsLowerAscii(s[k]) }
  predicate HasUpper(s: string) { exists k :: 0 <= k < |s| && IsUpperAscii(s[k]) }
  predicate HasDigit(s: string) { exists k :: 0 <= k < |s| && IsDigit(s[k]) }

  predicate NoLineTerminator(s: string) {
    forall k :: 0 <= k < |s| ==> !IsLineTerminator(s[k])
  }

  /**
   * How the pattern is matched: one pass over the string that fails on a line
   * terminator (which `.` does not match) and records whether a lower-case
   * letter, an upper-case letter and a digit have been seen.
   */
  function ScanPassword(s: string, lower: bool, upper: bool, digit: bool): bool {
    if |s| == 0 then lower && upper && digit
    else
      && !IsLineTerminator(s[0])
      && ScanPassword(s[1..], lower || IsLowerAscii(s[0]), upper || IsUpperAscii(s[0]), digit || IsDigit(s[0]))
  }

  /** `isStrongPassword(pwd)`. */
  function IsStrongPassword(pwd: JsValue): bool {
    pwd.Str? && |pwd.s| >= MinPasswordLength && ScanPassword(pwd.s, false, false, false)
  }

  /** The scan succeeds exactly when there is no line terminator and each kind of character occurs (or was seen before). */
  lemma {:induction false} ScanPasswordMeaning(s: string, lower: bool, upper: bool, digit: bool)
    ensures ScanPassword(s, lower, upper, digit) <==>
      NoLineTerminator(s) && (lower || HasLower(s)) && (upper || HasUpper(s)) && (digit || HasDigit(s))
  {
    if |s| > 0 {
      var t := s[1..];
      ScanPasswordMeaning(t, lower || IsLowerAscii(s[0]), upper || IsUpperAscii(s[0]), digit || IsDigit(s[0]));
      assert HasLower(s) <==> IsLowerAscii(s[0]) || HasLower(t) by {
        if HasLower(s) && !IsLowerAscii(s[0]) { var k :| 0 <= k < |s| && IsLowerAscii(s[k]); assert t[k - 1] == s[k]; }
        if HasLower(t) { var k :| 0 <= k < |t| && IsLowerAscii(t[k]); assert s[k + 1] == t[k]; }
      }
      assert HasUpper(s) <==> IsUpperAscii(s[0]) || HasUpper(t) by {
        if HasUpper(s) && !IsUpperAscii(s[0]) { var k :| 0 <= k < |s| && IsUpperAscii(s[k]); assert t[k - 1] == s[k]; }
        if HasUpper(t) { var k :| 0 <= k < |t| && IsUpperAscii(t[k]); assert s[k + 1] == t[k]; }
      }
      assert HasDigit(s) <==> IsDigit(s[0]) || HasDigit(t) by {
        if HasDigit(s) && !IsDigit(s[0]) { var k :| 0 <= k < |s| && IsDigit(s[k]); assert t[k - 1] == s[k]; }
        if HasDigit(t) { var k :| 0 <= k < |t| && IsDigit(t[k]); assert s[k + 1] == t[k]; }
      }
      assert NoLineTerminator(s) <==> !IsLineTerminator(s[0]) && NoLineTerminator(t) by {
        if !IsLineTerminator(s[0]) && NoLineTerminator(t) {
          forall k | 0 < k < |s| ensures !IsLineTerminator(s[k]) { assert s[k] == t[k - 1]; }
        }
      }
    }
  }

  /**
   * `isStrongPassword` holds exactly for strings of at least 8 characters with
   * no line terminator and at least one `[a-z]`, one `[A-Z]` and one `[0-9]`.
   */
  lemma IsStrongPasswordMeaning(pwd: JsValue)
    ensures IsStrongPassword(pwd) <==>
      && pwd.Str? && |pwd.s| >= 8 && NoLineTerminator(pwd.s)
      && HasLower(pwd.s) && HasUpper(pwd.s) && HasDigit(pwd.s)
  {
    if pwd.Str? {
      ScanPasswordMeaning(pwd.s, false, false, false);
    }
  }

  // ---------------------------------------------------------------------------
  // Error lists
  // ---------------------------------------------------------------------------

  /** A check yields its message when it fails and nothing otherwise. */
  function Emit(failed: bool, message: string): (r: Option<string>)
    ensures r.Some? <==> failed
  {
    if failed then Some(message) else None
  }

  /** The message of one check, as a list of zero or one elements. */
  function Messages(check: Option<string>): seq<string> {
    if check.Some? then [check.value] else []
  }

  /** The messages of the failed checks, in check order. */
  function Collect(checks: seq<Option<string>>): (errors: seq<string>)
    ensures |errors| <= |checks|
    ensures errors == [] <==> forall k :: 0 <= k < |checks| ==> checks[k].None?
  {
    if |checks| == 0 then []
    else Messages(checks[0]) + Collect(checks[1..])
  }

  /** For each collected message, the position of the check that produced it. */
  function CheckPositions(checks: seq<Option<string>>): (pos: seq<nat>)
    ensures |pos| == |Collect(checks)|
  {
    if |checks| == 0 then []
    else
      var rest := Shifted(CheckPositions(checks[1..]));
      if checks[0].Some? then [0] + rest else rest
  }

  /** Every position moved one check further on. */
  function Shifted(pos: seq<nat>): (r: seq<nat>)
    ensures |r| == |pos|
    ensures forall k :: 0 <= k < |r| ==> r[k] == pos[k] + 1
  {
    seq(|pos|, k requires 0 <= k < |pos| => pos[k] + 1)
  }

  /** Each message comes from the check at its position. */
  predicate FromChecks(checks: seq<Option<string>>, pos: seq<nat>, errors: seq<string>) {
    |pos| == |errors| && forall k :: 0 <= k < |pos| ==> pos[k] < |checks| && checks[pos[k]] == Some(errors[k])
  }

  /** Every collected message comes from its own check. */
  lemma {:induction false} CheckPositionsSource(checks: seq<Option<string>>)
    ensures FromChecks(checks, CheckPositions(checks), Collect(checks))
  {
    if |checks| > 0 {
      CheckPositionsSource(checks[1..]);
      var rest := Shifted(CheckPositions(checks[1..]));
      ShiftedSource(checks, CheckPositions(checks[1..]), Collect(checks[1..]));
      if checks[0].Some? {
        PrependSource(checks, rest, Collect(checks[1..]));
        assert CheckPositions(checks) == [0] + rest;
        assert Collect(checks) == [checks[0].value] + Collect(checks[1..]);
      } else {
        assert CheckPositions(checks) == rest && Collect(checks) == Collect(checks[1..]);
      }
    }
  }

  /** Positions into the checks after the first are positions one further on into all of them. */
  lemma ShiftedSource(checks: seq<Option<string>>, pos: seq<nat>, errors: seq<string>)
    requires |checks| > 0 && FromChecks(checks[1..], pos, errors)
    ensures FromChecks(checks, Shifted(pos), errors)
  {
    forall k | 0 <= k < |pos|
      ensures Shifted(pos)[k] < |checks| && checks[Shifted(pos)[k]] == Some(errors[k])
    {
      assert checks[Shifted(pos)[k]] == checks[1..][pos[k]];
    }
  }

  /** A first check that fails puts its message and position in front. */
  lemma PrependSource(checks: seq<Option<string>>, pos: seq<nat>, errors: seq<string>)
    requires |checks| > 0 && checks[0].Some? && FromChecks(checks, pos, errors)
    ensures FromChecks(checks, [0] + pos, [checks[0].value] + errors)
  {
    var p, e := [0] + pos, [checks[0].value] + errors;
    forall k | 0 < k < |p|
      ensures p[k] < |checks| && checks[p[k]] == Some(e[k])
    {
      assert p[k] == pos[k - 1] && e[k] == errors[k - 1];
    }
  }

  predicate Increasing(pos: seq<nat>) {
    forall k, l :: 0 <= k < l < |pos| ==> pos[k] < pos[l]
  }

  /** The positions increase, so messages appear in check order and each check contributes at most one. */
  lemma {:induction false} CheckPositionsIncrease(checks: seq<Option<string>>)
    ensures Increasing(CheckPositions(checks))
  {
    if |checks| > 0 {
      var tp := CheckPositions(checks[1..]);
      CheckPositionsIncrease(checks[1..]);
      assert Increasing(tp);
      var rest := Shifted(tp);
      forall k, l | 0 <= k < l < |rest|
        ensures 0 < rest[k] < rest[l]
      {
        assert tp[k] < tp[l];
      }
      if checks[0].Some? {
        var pos := [0] + rest;
        assert CheckPositions(checks) == pos;
        forall k, l | 0 <= k < l < |pos|
          ensures pos[k] < pos[l]
        {
          assert pos[l] == rest[l - 1];
          if k > 0 {
            assert pos[k] == rest[k - 1];
          } else {
            assert rest[l - 1] == tp[l - 1] + 1;
          }
        }
      } else {
        assert CheckPositions(checks) == rest;
      }
    }
  }

  lemma CollectThree(a: Option<string>, b: Option<string>, c: Option<string>)
    ensures Collect([a, b, c]) == Messages(a) + Messages(b) + Messages(c)
  {
    assert [a, b, c][1..] == [b, c];
    assert [b, c][1..] == [c];
    assert [c][1..] == [];
    assert Collect([c]) == Messages(c) + Collect([]);
    assert Collect([b, c]) == Messages(b) + Collect([c]);
  }

  lemma CollectFour(a: Option<string>, b: Option<string>, c: Option<string>, d: Option<string>)
    ensures Collect([a, b, c, d]) == Messages(a) + Messages(b) + Messages(c) + Messages(d)
  {
    assert [a, b, c, d][1..] == [b, c, d];
    CollectThree(b, c, d);
  }

  /** A message is collected exactly when some check emits it. */
  lemma {:induction false} CollectMembers(checks: seq<Option<string>>, m: string)
    ensures m in Collect(checks) <==> Some(m) in checks
  {
    if |checks| > 0 {
      CollectMembers(checks[1..], m);
      assert checks == [checks[0]] + checks[1..];
    }
  }

  // validateUser

  const UserDataRequired := "User data is required"
  const EmailRequired := "Valid email is required"
  const PasswordTooWeak := "Password must be at least 8 characters long and include uppercase, lowercase and a number"
  const UsernameNotString := "Username must be a string"

  function UserChecks(data: JsValue): seq<Option<string>> {
    var email, password, username := Get(data, "email"), Get(data, "password"), Get(data, "username");
    [ Emit(!Truthy(email) || !IsValidEmail(email), EmailRequired),
      Emit(!Truthy(password) || !IsStrongPassword(password), PasswordTooWeak),
      Emit(Truthy(username) && TypeOf(username) != "string", UsernameNotString) ]
  }

  /** What `validateUser(data)` returns. */
  function UserErrors(data: JsValue): seq<string> {
    if !Truthy(data) then [UserDataRequired] else Collect(UserChecks(data))
  }

  method ValidateUser(data: JsValue) returns (errors: seq<string>)
    ensures errors == UserErrors(data)
  {
    errors := [];
    if !Truthy(data) {
      errors := errors + [UserDataRequired];
      return;
    }
    var checks := UserChecks(data);
    var email, password, username := Get(data, "email"), Get(data, "password"), Get(data, "username");
    if !Truthy(email) || !IsValidEmail(email) {
      errors := errors + [EmailRequired];
    }
    assert errors == Messages(checks[0]);
    if !Truthy(password) || !IsStrongPassword(password) {
      errors := errors + [PasswordTooWeak];
    }
    assert errors == Messages(checks[0]) + Messages(checks[1]);
    if Truthy(username) && TypeOf(username) != "string" {
      errors := errors + [UsernameNotString];
    }
    assert errors == Messages(checks[0]) + Messages(checks[1]) + Messages(checks[2]);
    CollectThree(checks[0], checks[1], checks[2]);
    assert checks == [checks[0], checks[1], checks[2]];
  }

  // validateAccommodation

  const AccommodationDataRequired := "Accommodation data is required"
  const NameRequired := "Name is required and must be a string"
  const LocationRequired := "Location is required and must be a string"
  const PriceRequired := "pricePerNight is required and must be a positive number"
  const MaxGuestsRequired := "maxGuests is required and must be a positive integer"

  function AccommodationChecks(data: JsValue): seq<Option<string>> {
    var name, location := Get(data, "name"), Get(data, "location");
    var price, guests := Get(data, "pricePerNight"), Get(data, "maxGuests");
    [ Emit(!Truthy(name) || TypeOf(name) != "string", NameRequired),
      Emit(!Truthy(location) || TypeOf(location) != "string", LocationRequired),
      Emit(IsNullish(price) || TypeOf(price) != "number" || price.n <= 0.0, PriceRequired),
      Emit(IsNullish(guests) || !IsInteger(guests) || guests.n <= 0.0, MaxGuestsRequired) ]
  }

  /** What `validateAccommodation(data)` returns. */
  function AccommodationErrors(data: JsValue): seq<string> {
    if !Truthy(data) then [AccommodationDataRequired] else Collect(AccommodationChecks(data))
  }

  method ValidateAccommodation(data: JsValue) returns (errors: seq<string>)
    ensures errors == AccommodationErrors(data)
  {
    errors := [];
    if !Truthy(data) {
      errors := errors + [AccommodationDataRequired];
      return;
    }
    var checks := AccommodationChecks(data);
    var name, location := Get(data, "name"), Get(data, "location");
    var price, guests := Get(data, "pricePerNight"), Get(data, "maxGuests");
    if !Truthy(name) || TypeOf(name) != "string" {
      errors := errors + [NameRequired];
    }
    assert errors == Messages(checks[0]);
    if !Truthy(location) || TypeOf(location) != "string" {
      errors := errors + [LocationRequired];
    }
    assert errors == Messages(checks[0]) + Messages(checks[1]);
    if IsNullish(price) || TypeOf(price) != "number" || price.n <= 0.0 {
      errors := errors + [PriceRequired];
    }
    assert errors == Messages(checks[0]) + Messages(checks[1]) + Messages(checks[2]);
    if IsNullish(guests) || !IsInteger(guests) || guests.n <= 0.0 {
      errors := errors + [MaxGuestsRequired];
    }
    assert errors == Messages(checks[0]) + Messages(checks[1]) + Messages(checks[2]) + Messages(checks[3]);
    CollectFour(checks[0], checks[1], checks[2], checks[3]);
    assert checks == [checks[0], checks[1], checks[2], checks[3]];
  }

  // validateBooking

  const BookingDataRequired := "Booking data is required"
  const AccommodationIdRequired := "accommodationId is required"
  const UserIdRequired := "userId is required"
  const DatesRequired := "Valid startDate and endDate are required"
  const StartNotBeforeEnd := "startDate must be before endDate"

  /** The date check: `start` and `end` are the parsed dates, None for an invalid date. */
  function DateCheck(start: Option<int>, end: Option<int>): Option<string> {
    if start.None? || end.None? then Some(DatesRequired)
    else if start.value >= end.value then Some(StartNotBeforeEnd)
    else None
  }

  function BookingChecks(data: JsValue, parseDate: JsValue -> Option<int>): seq<Option<string>> {
    [ Emit(!Truthy(Get(data, "accommodationId")), AccommodationIdRequired),
      Emit(!Truthy(Get(data, "userId")), UserIdRequired),
      DateCheck(parseDate(Get(data, "startDate")), parseDate(Get(data, "endDate"))) ]
  }

  /** What `validateBooking(data)` returns; `parseDate` stands for `new Date(...)`. */
  function BookingErrors(data: JsValue, parseDate: JsValue -> Option<int>): seq<string> {
    if !Truthy(data) then [BookingDataRequired] else Collect(BookingChecks(data, parseDate))
  }

  method ValidateBooking(data: JsValue, parseDate: JsValue -> Option<int>) returns (errors: seq<string>)
    ensures errors == BookingErrors(data, parseDate)
  {
    errors := [];
    if !Truthy(data) {
      errors := errors + [BookingDataRequired];
      return;
    }
    var checks := BookingChecks(data, parseDate);
    if !Truthy(Get(data, "accommodationId")) {
      errors := errors + [AccommodationIdRequired];
    }
    assert errors == Messages(checks[0]);
    if !Truthy(Get(data, "userId")) {
      errors := errors + [UserIdRequired];
    }
    assert errors == Messages(checks[0]) + Messages(checks[1]);
    var start := parseDate(Get(data, "startDate"));
    var end := parseDate(Get(data, "endDate"));
    if start.None? || end.None? {
      errors := errors + [DatesRequired];
    } else if start.value >= end.value {
      errors := errors + [StartNotBeforeEnd];
    }
    assert errors == Messages(checks[0]) + Messages(checks[1]) + Messages(checks[2]);
    CollectThree(checks[0], checks[1], checks[2]);
    assert checks == [checks[0], checks[1], checks[2]];
  }

  // validateReview

  const ReviewDataRequired := "Review data is required"
  const RatingOutOfRange := "rating must be a number between 1 and 5"
  const CommentNotString := "comment must be a string"

  function ReviewChecks(data: JsValue): seq<Option<string>> {
    var rating, comment := Get(data, "rating"), Get(data, "comment");
    [ Emit(!Truthy(Get(data, "accommodationId")), AccommodationIdRequired),
      Emit(!Truthy(Get(data, "userId")), UserIdRequired),
      Emit(IsNullish(rating) || TypeOf(rating) != "number" || rating.n < 1.0 || rating.n > 5.0, RatingOutOfRange),
      Emit(Truthy(comment) && TypeOf(comment) != "string", CommentNotString) ]
  }

  /** What `validateReview(data)` returns. */
  function ReviewErrors(data: JsValue): seq<string> {
    if !Truthy(data) then [ReviewDataRequired] else Collect(ReviewChecks(data))
  }

  method ValidateReview(data: JsValue) returns (errors: seq<string>)
    ensures errors == ReviewErrors(data)
  {
    errors := [];
    if !Truthy(data) {
      errors := errors + [ReviewDataRequired];
      return;
    }
    var checks := ReviewChecks(data);
    var rating, comment := Get(data, "rating"), Get(data, "comment");
    if !Truthy(Get(data, "accommodationId")) {
      errors := errors + [AccommodationIdRequired];
    }
    assert errors == Messages(checks[0]);
    if !Truthy(Get(data, "userId")) {
      errors := errors + [UserIdRequired];
    }
    assert errors == Messages(checks[0]) + Messages(checks[1]);
    if IsNullish(rating) || TypeOf(rating) != "number" || rating.n < 1.0 || rating.n > 5.0 {
      errors := errors + [RatingOutOfRange];
    }
    assert errors == Messages(checks[0]) + Messages(checks[1]) + Messages(checks[2]);
    if Truthy(comment) && TypeOf(comment) != "string" {
      errors := errors + [CommentNotString];
    }
    assert errors == Messages(checks[0]) + Messages(checks[1]) + Messages(checks[2]) + Messages(checks[3]);
    CollectFour(checks[0], checks[1], checks[2], checks[3]);
    assert checks == [checks[0], checks[1], checks[2], checks[3]];
  }

  // validateMessage

  const MessageDataRequired := "Message data is required"
  const SenderIdRequired := "senderId is required"
  const ReceiverIdRequired := "receiverId is required"
  const ContentRequired := "content is required and must be a non\U{2011}empty string"

  function MessageChecks(data: JsValue): seq<Option<string>> {
    var content := Get(data, "content");
    [ Emit(!Truthy(Get(data, "senderId")), SenderIdRequired),
      Emit(!Truthy(Get(data, "receiverId")), ReceiverIdRequired),
      Emit(!Truthy(content) || TypeOf(content) != "string" || Trim(content.s) == [], ContentRequired) ]
  }

  /** What `validateMessage(data)` returns. */
  function MessageErrors(data: JsValue): seq<string> {
    if !Truthy(data) then [MessageDataRequired] else Collect(MessageChecks(data))
  }

  method ValidateMessage(data: JsValue) returns (errors: seq<string>)
    ensures errors == MessageErrors(data)
  {
    errors := [];
    if !Truthy(data) {
      errors := errors + [MessageDataRequired];
      return;
    }
    var checks := MessageChecks(data);
    var content := Get(data, "content");
    if !Truthy(Get(data, "senderId")) {
      errors := errors + [SenderIdRequired];
    }
    assert errors == Messages(checks[0]);
    if !Truthy(Get(data, "receiverId")) {
      errors := errors + [ReceiverIdRequired];
    }
    assert errors == Messages(checks[0]) + Messages(checks[1]);
    if !Truthy(content) || TypeOf(content) != "string" || Trim(content.s) == [] {
      errors := errors + [ContentRequired];
    }
    assert errors == Messages(checks[0]) + Messages(checks[1]) + Messages(checks[2]);
    CollectThree(checks[0], checks[1], checks[2]);
    assert checks == [checks[0], checks[1], checks[2]];
  }
}

/** What the validators promise, stated over the lists they return. */
module ValidatorProperties {
  import opened Wrappers
  import opened Strings
  import opened JsValues
  import opened Validator

  /** Falsy data gets exactly the "... data is required" message and no other check. */
  lemma FalsyDataIsRequired(data: JsValue, parseDate: JsValue -> Option<int>)
    requires !Truthy(data)
    ensures UserErrors(data) == [UserDataRequired]
    ensures AccommodationErrors(data) == [AccommodationDataRequired]
    ensures BookingErrors(data, parseDate) == [BookingDataRequired]
    ensures ReviewErrors(data) == [ReviewDataRequired]
    ensures MessageErrors(data) == [MessageDataRequired]
  {
  }

  /** Each check contributes at most one message. */
  lemma ErrorCountBounds(data: JsValue, parseDate: JsValue -> Option<int>)
    ensures |UserErrors(data)| <= 3
    ensures |AccommodationErrors(data)| <= 4
    ensures |BookingErrors(data, parseDate)| <= 3
    ensures |ReviewErrors(data)| <= 4
    ensures |MessageErrors(data)| <= 3
  {
  }

  /**
   * `validateUser` returns no error exactly when the data is truthy, the email
   * is truthy and valid, the password is truthy and strong, and the username
   * is falsy or a string.
   */
  lemma UserAccepted(data: JsValue)
    ensures UserErrors(data) == [] <==>
      && Truthy(data)
      && Truthy(Get(data, "email")) && IsValidEmail(Get(data, "email"))
      && Truthy(Get(data, "password")) && IsStrongPassword(Get(data, "password"))
      && (!Truthy(Get(data, "username")) || Get(data, "username").Str?)
  {
    if Truthy(data) {
      var checks := UserChecks(data);
      assert (forall k :: 0 <= k < |checks| ==> checks[k].None?) <==> checks[0].None? && checks[1].None? && checks[2].None?;
    }
  }

  /**
   * `validateAccommodation` returns no error exactly when name and location
   * are non-empty strings, pricePerNight is a positive number and maxGuests a
   * positive integer.
   */
  lemma AccommodationAccepted(data: JsValue)
    ensures AccommodationErrors(data) == [] <==>
      && Truthy(data)
      && Get(data, "name").Str? && Get(data, "name").s != []
      && Get(data, "location").Str? && Get(data, "location").s != []
      && Get(data, "pricePerNight").Num? && Get(data, "pricePerNight").n > 0.0
      && IsInteger(Get(data, "maxGuests")) && Get(data, "maxGuests").n > 0.0
  {
    if Truthy(data) {
      var checks := AccommodationChecks(data);
      assert (forall k :: 0 <= k < |checks| ==> checks[k].None?) <==>
        checks[0].None? && checks[1].None? && checks[2].None? && checks[3].None?;
    }
  }

  /**
   * The date check of `validateBooking`: "startDate must be before endDate"
   * only when both dates parse and the start is not before the end; "Valid
   * startDate and endDate are required" when either does not parse; never both.
   */
  lemma BookingDateErrors(data: JsValue, parseDate: JsValue -> Option<int>)
    ensures var start, end := parseDate(Get(data, "startDate")), parseDate(Get(data, "endDate"));
      StartNotBeforeEnd in BookingErrors(data, parseDate) <==>
        Truthy(data) && start.Some? && end.Some? && start.value >= end.value
    ensures var start, end := parseDate(Get(data, "startDate")), parseDate(Get(data, "endDate"));
      DatesRequired in BookingErrors(data, parseDate) <==> Truthy(data) && (start.None? || end.None?)
    ensures !(StartNotBeforeEnd in BookingErrors(data, parseDate) && DatesRequired in BookingErrors(data, parseDate))
  {
    if Truthy(data) {
      var checks := BookingChecks(data, parseDate);
      CollectMembers(checks, StartNotBeforeEnd);
      CollectMembers(checks, DatesRequired);
    }
  }

  /** `validateReview` accepts a rating exactly when it is a number between 1 and 5 inclusive. */
  lemma ReviewRatingAccepted(data: JsValue)
    requires Truthy(data)
    ensures var rating := Get(data, "rating");
      RatingOutOfRange !in ReviewErrors(data) <==> rating.Num? && 1.0 <= rating.n <= 5.0
  {
    CollectMembers(ReviewChecks(data), RatingOutOfRange);
  }

  /** `validateMessage` rejects content that is missing, not a string, or only whitespace. */
  lemma MessageContentRejected(data: JsValue)
    requires Truthy(data)
    ensures var content := Get(data, "content");
      ContentRequired in MessageErrors(data) <==> !Truthy(content) || !content.Str? || AllWhitespace(content.s)
  {
    var content := Get(data, "content");
    CollectMembers(MessageChecks(data), ContentRequired);
    if content.Str? {
      TrimEmptyIffBlank(content.s);
    }
  }
}
