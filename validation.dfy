/**
 * The input validators of baccarat/pkg/validation/validator.go: ordered chains of guards that
 * return the first failing rule's error, or nil (None) when every rule passes. Lengths are
 * Go's len(), the byte length of the UTF-8 encoding.
 */
module Validation {
  import opened Common
  import Text

  datatype ValidationError =
    | EmptyUsername | InvalidUsername | UsernameTooShort | UsernameTooLong
    | EmptyPassword | PasswordTooShort | PasswordTooLong | InvalidPassword
    | InvalidAmount | InvalidBetType | InvalidGameID

  /** unicode.IsSpace: the characters of Unicode's White_Space property. */
  predicate IsSpace(c: char) {
    var n := c as int;
    (0x09 <= n <= 0x0D) || n == 0x20 || n == 0x85 || n == 0xA0 || n == 0x1680 ||
    (0x2000 <= n <= 0x200A) || n == 0x2028 || n == 0x2029 || n == 0x202F || n == 0x205F || n == 0x3000
  }

  /** s without its leading white space. */
  function TrimLeft(s: string): (r: string)
    ensures |r| <= |s| && r == s[|s| - |r|..]
    ensures r == [] || !IsSpace(r[0])
    ensures forall k :: 0 <= k < |s| - |r| ==> IsSpace(s[k])
  {
    if s != [] && IsSpace(s[0]) then
      var r := TrimLeft(s[1..]);
      assert forall k :: 1 <= k < |s| - |r| ==> s[k] == s[1..][k - 1];
      r
    else s
  }

  /** s without its trailing white space. */
  function TrimRight(s: string): (r: string)
    ensures |r| <= |s| && r == s[..|r|]
    ensures r == [] || !IsSpace(r[|r| - 1])
    ensures forall k :: |r| <= k < |s| ==> IsSpace(s[k])
  {
    if s != [] && IsSpace(s[|s| - 1]) then
      var r := TrimRight(s[..|s| - 1]);
      assert forall k :: |r| <= k < |s| - 1 ==> s[k] == s[..|s| - 1][k];
      r
    else s
  }

  /** strings.TrimSpace: the white space at both ends removed. */
  function TrimSpace(s: string): (r: string)
    ensures r == [] || (!IsSpace(r[0]) && !IsSpace(r[|r| - 1]))
  {
    TrimRight(TrimLeft(s))
  }

  lemma TrimLeftOfUntrimmed(s: string)
    requires s == [] || !IsSpace(s[0])
    ensures TrimLeft(s) == s
  {
  }

  lemma TrimRightOfUntrimmed(s: string)
    requires s == [] || !IsSpace(s[|s| - 1])
    ensures TrimRight(s) == s
  {
  }

  /** Trimming twice is trimming once. */
  lemma TrimSpaceIdempotent(s: string)
    ensures TrimSpace(TrimSpace(s)) == TrimSpace(s)
  {
    var t := TrimSpace(s);
    TrimLeftOfUntrimmed(t);
    TrimRightOfUntrimmed(t);
  }

  /** The trimmed text is a slice of the input. */
  lemma TrimSpaceIsSlice(s: string)
    ensures exists i, j :: 0 <= i <= j <= |s| && TrimSpace(s) == s[i..j]
  {
    var l := TrimLeft(s);
    var t := TrimRight(l);
    var i := |s| - |l|;
    assert t == l[..|t|];
    assert l[..|t|] == s[i..i + |t|];
  }

  predicate IsWordChar(c: char) {
    ('a' <= c <= 'z') || ('A' <= c <= 'Z') || ('0' <= c <= '9') || c == '_'
  }

  /** ^[a-zA-Z0-9_]+$ */
  predicate IsWord(s: string) {
    |s| >= 1 && forall k :: 0 <= k < |s| ==> IsWordChar(s[k])
  }

  /** ValidateUsername: after trimming, empty, then shorter than 3 bytes, then longer than 20, then the character rule. */
  function ValidateUsername(username: string): (r: Option<ValidationError>)
    ensures r.None? ==> IsWord(TrimSpace(username)) && 3 <= |TrimSpace(username)| <= 20
    ensures r == Some(EmptyUsername) <==> TrimSpace(username) == []
    ensures r == Some(UsernameTooShort) <==> TrimSpace(username) != [] && Text.Utf8Len(TrimSpace(username)) < 3
    ensures r == Some(UsernameTooLong) <==> Text.Utf8Len(TrimSpace(username)) > 20
    ensures r == Some(InvalidUsername) <==>
      3 <= Text.Utf8Len(TrimSpace(username)) <= 20 && !IsWord(TrimSpace(username))
  {
    var name := TrimSpace(username);
    Text.Utf8LenBounds(name);
    if name == [] then Some(EmptyUsername)
    else if Text.Utf8Len(name) < 3 then Some(UsernameTooShort)
    else if Text.Utf8Len(name) > 20 then Some(UsernameTooLong)
    else if !IsWord(name) then Some(InvalidUsername)
    else None
  }

  /** An accepted name is plain ASCII of 3 to 20 characters, and validating its trimmed form gives the same answer. */
  lemma UsernameAccepted(username: string)
    ensures ValidateUsername(TrimSpace(username)) == ValidateUsername(username)
    ensures ValidateUsername(username).None? <==>
      var t := TrimSpace(username);
      IsWord(t) && 3 <= |t| <= 20
  {
    TrimSpaceIdempotent(username);
    var t := TrimSpace(username);
    Text.Utf8LenBounds(t);
    if IsWord(t) {
      assert Text.IsAscii(t);
    }
  }

  /** ValidatePassword: empty, then shorter than 6 bytes, then longer than 50, then the three character classes. */
  function ValidatePassword(password: string): (r: Option<ValidationError>)
    ensures r.None? <==> 6 <= Text.Utf8Len(password) <= 50 && HasUpper(password) && HasLower(password) && HasDigit(password)
    ensures r == Some(EmptyPassword) <==> password == []
  {
    Text.Utf8LenBounds(password);
    if password == [] then Some(EmptyPassword)
    else if Text.Utf8Len(password) < 6 then Some(PasswordTooShort)
    else if Text.Utf8Len(password) > 50 then Some(PasswordTooLong)
    else if !HasUpper(password) || !HasLower(password) || !HasDigit(password) then Some(InvalidPassword)
    else None
  }

  predicate HasUpper(s: string) {
    exists k :: 0 <= k < |s| && 'A' <= s[k] <= 'Z'
  }

  predicate HasLower(s: string) {
    exists k :: 0 <= k < |s| && 'a' <= s[k] <= 'z'
  }

  predicate HasDigit(s: string) {
    exists k :: 0 <= k < |s| && '0' <= s[k] <= '9'
  }

  /** Each error is the first failing rule, in order: length before the character classes. */
  lemma PasswordRuleOrder(password: string)
    ensures ValidatePassword(password) == Some(PasswordTooShort) <==> password != [] && Text.Utf8Len(password) < 6
    ensures ValidatePassword(password) == Some(PasswordTooLong) <==> Text.Utf8Len(password) > 50
    ensures ValidatePassword(password) == Some(InvalidPassword) <==>
      6 <= Text.Utf8Len(password) <= 50 && !(HasUpper(password) && HasLower(password) && HasDigit(password))
  {
    Text.Utf8LenBounds(password);
  }

  /** ValidateAmount: an error exactly for amounts of 0 or less. */
  function ValidateAmount(amount: real): (r: Option<ValidationError>)
    ensures r.Some? <==> amount <= 0.0
    ensures r.Some? ==> r.value == InvalidAmount
  {
    if amount <= 0.0 then Some(InvalidAmount) else None
  }

  /**
   * unicode.ToLower for one character as far as an ASCII comparison can tell: A-Z become a-z, and
   * the two non-ASCII characters whose lower case is ASCII (U+0130 to 'i', U+212A to 'k') are
   * mapped; every other character is kept.
   */
  function LowerRune(c: char): (l: char)
    ensures !('A' <= l <= 'Z')
    ensures (l as int < 0x80) <==> (c as int < 0x80 || c as int == 0x130 || c as int == 0x212A)
  {
    if 'A' <= c <= 'Z' then (c as int + 32) as char
    else if c as int == 0x130 then 'i'
    else if c as int == 0x212A then 'k'
    else c
  }

  /** strings.ToLower */
  function ToLower(s: string): (r: string)
    ensures |r| == |s|
  {
    if s == [] then [] else [LowerRune(s[0])] + ToLower(s[1..])
  }

  /** Lower-casing works character by character. */
  lemma {:induction false} ToLowerAt(s: string, k: nat)
    requires k < |s|
    ensures ToLower(s)[k] == LowerRune(s[k])
  {
    if k > 0 {
      ToLowerAt(s[1..], k - 1);
    }
  }

  /** The keys of the table of valid bet types. */
  const BetTypeKeys: set<string> := {"player", "banker", "tie", "luckySix"}

  /** ValidateBetType: accepted exactly when the lower-cased input is a key of the table. */
  function ValidateBetType(betType: string): (r: Option<ValidationError>)
    ensures r.None? <==> ToLower(betType) in BetTypeKeys
    ensures r.Some? ==> r.value == InvalidBetType
  {
    if ToLower(betType) in BetTypeKeys then None else Some(InvalidBetType)
  }

  /** No lower-cased text contains a capital letter, so the key "luckySix" is out of reach. */
  lemma LuckySixNeverLower(s: string)
    ensures ToLower(s) != "luckySix"
  {
    if |s| == 8 {
      ToLowerAt(s, 5);
      assert "luckySix"[5] == 'S';
    }
  }

  /** As written, exactly player, banker and tie pass, in any mix of case; the test expects "luckySix" to pass as well. */
  lemma BetTypeAcceptedExactly(betType: string)
    ensures ValidateBetType(betType).None? <==> ToLower(betType) in {"player", "banker", "tie"}
  {
    LuckySixNeverLower(betType);
  }

  /** The table's own Lucky-Six key is refused, which the package's test expects to pass. */
  lemma LuckySixRejected()
    ensures ValidateBetType("luckySix") == Some(InvalidBetType)
  {
    LuckySixNeverLower("luckySix");
  }

  /** The lower-cased table keys that the bet-type check evidently means. */
  const FoldedBetTypeKeys: set<string> := {"player", "banker", "tie", "luckysix"}

  /** Corrected ValidateBetType: the table keys written in lower case. */
  function ValidateBetTypeFolded(betType: string): (r: Option<ValidationError>)
    ensures r.None? <==> ToLower(betType) in FoldedBetTypeKeys
  {
    if ToLower(betType) in FoldedBetTypeKeys then None else Some(InvalidBetType)
  }

  /** The corrected check accepts the Lucky-Six key as the table spells it and in capitals. */
  lemma FoldedLuckySix()
    ensures ValidateBetTypeFolded("luckySix").None?
  {
    assert ToLower("luckySix") == "luckysix";
  }

  /** The corrected check accepts the Lucky-Six key in capitals too. */
  lemma FoldedLuckySixCapitals()
    ensures ValidateBetTypeFolded("LUCKYSIX").None?
  {
    assert ToLower("LUCKYSIX") == "luckysix";
  }

  /** Corrected: the fold changes only the Lucky-Six key. */
  lemma FoldedBetTypes(betType: string)
    ensures ToLower(betType) != "luckysix" ==> ValidateBetTypeFolded(betType) == ValidateBetType(betType)
  {
    LuckySixNeverLower(betType);
  }

  /** ValidateGameID: accepted exactly at 36 bytes, the length of a UUID's text. */
  function ValidateGameID(gameID: string): (r: Option<ValidationError>)
    ensures r.None? <==> Text.Utf8Len(gameID) == 36
  {
    if Text.Utf8Len(gameID) != 36 then Some(InvalidGameID) else None
  }

  /** ValidateRegistration: the username's error if any, else the password's result. */
  function ValidateRegistration(username: string, password: string): (r: Option<ValidationError>)
    ensures ValidateUsername(username).Some? ==> r == ValidateUsername(username)
    ensures ValidateUsername(username).None? ==> r == ValidatePassword(password)
  {
    var e := ValidateUsername(username);
    if e.Some? then e else ValidatePassword(password)
  }

  /** ValidateBet: the bet type's error if any, else the amount's result. */
  function ValidateBet(betType: string, amount: real): (r: Option<ValidationError>)
    ensures r.None? <==> ToLower(betType) in {"player", "banker", "tie"} && amount > 0.0
    ensures ValidateBetType(betType).Some? ==> r == Some(InvalidBetType)
  {
    BetTypeAcceptedExactly(betType);
    var e := ValidateBetType(betType);
    if e.Some? then e else ValidateAmount(amount)
  }

  /** The username test table: empty, too short, too long, a character outside the class, and two valid names. */
  lemma UsernameTestCases()
    ensures ValidateUsername("") == Some(EmptyUsername)
    ensures ValidateUsername("ab") == Some(UsernameTooShort)
    ensures ValidateUsername("abcdefghijklmnopqrstuvwxyz") == Some(UsernameTooLong)
    ensures ValidateUsername("user@name") == Some(InvalidUsername)
    ensures ValidateUsername("user123").None?
    ensures ValidateUsername("user_123").None?
  {
    ShortNameCase();
    LongNameCase();
    BadCharacterCase();
    PlainNameCase();
    UnderscoreNameCase();
  }

  lemma LongNameCase()
    ensures ValidateUsername("abcdefghijklmnopqrstuvwxyz") == Some(UsernameTooLong)
  {
    var s := "abcdefghijklmnopqrstuvwxyz";
    TrimLeftOfUntrimmed(s);
    TrimRightOfUntrimmed(s);
    Text.Utf8LenBounds(s);
  }

  lemma PlainNameCase()
    ensures ValidateUsername("user123").None?
  {
    PlainNameText();
  }

  lemma PlainNameText()
    ensures TrimSpace("user123") == "user123" && IsWord("user123") && Text.Utf8Len("user123") == 7
  {
    TrimLeftOfUntrimmed("user123");
    TrimRightOfUntrimmed("user123");
    assert Text.IsAscii("user123");
    Text.Utf8LenBounds("user123");
  }

  lemma UnderscoreNameCase()
    ensures ValidateUsername("user_123").None?
  {
    UnderscoreNameText();
  }

  lemma UnderscoreNameText()
    ensures TrimSpace("user_123") == "user_123" && IsWord("user_123") && Text.Utf8Len("user_123") == 8
  {
    TrimLeftOfUntrimmed("user_123");
    TrimRightOfUntrimmed("user_123");
    assert Text.IsAscii("user_123");
    Text.Utf8LenBounds("user_123");
  }

  lemma ShortNameCase()
    ensures ValidateUsername("ab") == Some(UsernameTooShort)
  {
    assert TrimSpace("ab") == "ab";
    assert Text.Utf8Len("ab") == 2;
  }

  lemma BadCharacterCase()
    ensures ValidateUsername("user@name") == Some(InvalidUsername)
  {
    TrimLeftOfUntrimmed("user@name");
    TrimRightOfUntrimmed("user@name");
    assert Text.Utf8Len("user@name") == 9;
    assert !IsWordChar("user@name"[4]);
  }

  /** The test's over-long password: "Aa1" followed by 50 zero bytes. */
  function LongPassword(): (p: string)
    ensures |p| == 53
  {
    "Aa1" + seq(50, _ => 0 as char)
  }

  /** The password test table: empty, too short, too long, each missing class, and a valid password. */
  lemma PasswordTestCases()
    ensures ValidatePassword("") == Some(EmptyPassword)
    ensures ValidatePassword("Aa1") == Some(PasswordTooShort)
    ensures ValidatePassword(LongPassword()) == Some(PasswordTooLong)
    ensures ValidatePassword("password123") == Some(InvalidPassword)
    ensures ValidatePassword("PASSWORD123") == Some(InvalidPassword)
    ensures ValidatePassword("PasswordABC") == Some(InvalidPassword)
    ensures ValidatePassword("Password123").None?
  {
    ShortPasswordCase();
    LongPasswordCase();
    NoCapitalCase();
    NoLowerCase();
    NoDigitCase();
    ValidPasswordCase();
  }

  lemma ShortPasswordCase()
    ensures ValidatePassword("Aa1") == Some(PasswordTooShort)
  {
    assert Text.IsAscii("Aa1");
    Text.Utf8LenBounds("Aa1");
    PasswordRuleOrder("Aa1");
  }

  lemma LongPasswordCase()
    ensures ValidatePassword(LongPassword()) == Some(PasswordTooLong)
  {
    Text.Utf8LenBounds(LongPassword());
    PasswordRuleOrder(LongPassword());
  }

  lemma ValidPasswordCase()
    ensures ValidatePassword("Password123").None?
  {
    ValidPasswordText();
  }

  lemma ValidPasswordText()
    ensures Text.Utf8Len("Password123") == 11
    ensures HasUpper("Password123") && HasLower("Password123") && HasDigit("Password123")
  {
    var s := "Password123";
    assert 'A' <= s[0] <= 'Z';
    assert 'a' <= s[1] <= 'z';
    assert '0' <= s[8] <= '9';
    ElevenAscii(s);
  }

  lemma NoLowerCase()
    ensures ValidatePassword("PASSWORD123") == Some(InvalidPassword)
  {
    NoLowerText();
    PasswordRuleOrder("PASSWORD123");
  }

  lemma NoLowerText()
    ensures Text.Utf8Len("PASSWORD123") == 11 && !HasLower("PASSWORD123")
  {
    ElevenAscii("PASSWORD123");
    NoLowerLetter();
  }

  lemma NoLowerLetter()
    ensures !HasLower("PASSWORD123")
  {
  }

  lemma NoDigitCase()
    ensures ValidatePassword("PasswordABC") == Some(InvalidPassword)
  {
    NoDigitText();
    PasswordRuleOrder("PasswordABC");
  }

  lemma NoDigitText()
    ensures Text.Utf8Len("PasswordABC") == 11 && !HasDigit("PasswordABC")
  {
    ElevenAscii("PasswordABC");
    NoDigitCharacter();
  }

  lemma NoDigitCharacter()
    ensures !HasDigit("PasswordABC")
  {
  }

  /** An ASCII text's byte length is its length. */
  lemma ElevenAscii(s: string)
    requires |s| == 11 && forall k :: 0 <= k < 11 ==> s[k] as int < 0x80
    ensures Text.Utf8Len(s) == 11
  {
    Text.Utf8LenBounds(s);
  }

  lemma NoCapitalCase()
    ensures ValidatePassword("password123") == Some(InvalidPassword)
  {
    assert !HasUpper("password123");
  }
}
