/** The pure parts of `Boot.cleanRotationFiles`: the filter that keeps the
    active log out of the cleanup, the `\d{4}-\d{2}` date-token match, and the
    choice of names whose token is at least the threshold number of days old. */
module LogRotation {
  import opened Js

  predicate IsAsciiDigit(c: char) {
    '0' <= c <= '9'
  }

  predicate IsAsciiLetter(c: char) {
    'a' <= c <= 'z' || 'A' <= c <= 'Z'
  }

  /** Case canonicalisation of a case-insensitive, non-unicode regular
      expression on one UTF-16 code unit. Only ASCII letters fold onto ASCII
      letters; the pattern is ASCII, so no other folding can make a unit match. */
  function FoldCase(u: int): int {
    if 'a' as int <= u <= 'z' as int then u - 32 else u
  }

  /** Code units that `.` in a regular expression does not match. */
  predicate IsLineTerminator(u: int) {
    u == '\n' as int || u == '\r' as int || u == 0x2028 || u == 0x2029
  }

  /** The UTF-16 encoding of one character: itself below U+10000, otherwise a
      high and a low surrogate. */
  function CharCodeUnits(c: char): (r: seq<int>)
    ensures |r| == if c as int < 0x10000 then 1 else 2
    ensures c as int < 0x10000 ==> r == [c as int]
    ensures c as int >= 0x10000 ==> 0xD800 <= r[0] < 0xDC00 && 0xDC00 <= r[1] < 0xE000
  {
    var n := c as int;
    if n < 0x10000 then [n] else [0xD800 + (n - 0x10000) / 0x400, 0xDC00 + (n - 0x10000) % 0x400]
  }

  /** The UTF-16 code units of a string, which is what a non-unicode regular
      expression matches against. */
  function CodeUnits(s: string): (r: seq<int>)
    ensures |s| <= |r|
  {
    if s == [] then [] else CharCodeUnits(s[0]) + CodeUnits(s[1..])
  }

  /** Letters that, after a backslash, form a character class or a control
      escape instead of standing for themselves. */
  predicate IsEscapeLetter(c: char) {
    c in "bBdDsSwWfnrtvcxu"
  }

  /** A base name whose pattern `^\<base>` the model covers: ASCII letters,
      digits, `-`, `_` and `.`, and a first character that the leading
      backslash turns into itself. */
  predicate PlainBaseName(base: string) {
    && (forall i :: 0 <= i < |base| ==> IsAsciiLetter(base[i]) || IsAsciiDigit(base[i]) || base[i] in "-_.")
    && (|base| > 0 ==> !IsEscapeLetter(base[0]) && !IsAsciiDigit(base[0]))
  }

  /** Code unit `u` of a file name matches position `i` of the pattern: the
      escaped first character and every letter or digit match themselves up to
      case, an unescaped `.` matches any one code unit but a line terminator. */
  predicate PatternUnitMatches(base: string, i: nat, u: int)
    requires i < |base|
  {
    if i > 0 && base[i] == '.' then !IsLineTerminator(u) else FoldCase(base[i] as int) == FoldCase(u)
  }

  /** `name.match(/^\<base>/gi)` succeeds: the UTF-16 code units of the name
      start with the active log's base name. */
  predicate MatchesActiveLog(base: string, name: string) {
    var units := CodeUnits(name);
    |base| <= |units| && forall i :: 0 <= i < |base| ==> PatternUnitMatches(base, i, units[i])
  }

  /** `dirFileList.filter(elm => !elm.match(regex))`. */
  function WithoutActiveLog(names: seq<string>, base: string): (r: seq<string>)
    ensures |r| <= |names|
    ensures forall n :: n in r <==> n in names && !MatchesActiveLog(base, n)
  {
    if names == [] then []
    else
      var rest := WithoutActiveLog(names[..|names| - 1], base);
      var last := names[|names| - 1];
      assert names == names[..|names| - 1] + [last];
      if MatchesActiveLog(base, last) then rest else rest + [last]
  }

  /** A `\d{4}-\d{2}` match starts at index `i` of `name`. */
  predicate DateTokenAt(name: string, i: nat) {
    && i + 7 <= |name|
    && IsAsciiDigit(name[i]) && IsAsciiDigit(name[i + 1]) && IsAsciiDigit(name[i + 2]) && IsAsciiDigit(name[i + 3])
    && name[i + 4] == '-'
    && IsAsciiDigit(name[i + 5]) && IsAsciiDigit(name[i + 6])
  }

  /** The leftmost start, at or after `from`, of a date token in `name`. */
  function FirstDateTokenFrom(name: string, from: nat): (r: Option<nat>)
    ensures r.Some? ==> from <= r.value && DateTokenAt(name, r.value)
    ensures r.Some? ==> forall j :: from <= j < r.value ==> !DateTokenAt(name, j)
    ensures r.None? ==> forall j :: from <= j ==> !DateTokenAt(name, j)
    decreases |name| - from
  {
    if from + 7 > |name| then None
    else if DateTokenAt(name, from) then Some(from)
    else FirstDateTokenFrom(name, from + 1)
  }

  /** `dateMatch[0]` of `name.match(/\d{4}-\d{2}/g)`: the first token, or None
      when the match is `null`. */
  function DateToken(name: string): (r: Option<string>)
    ensures r.None? <==> forall j :: 0 <= j ==> !DateTokenAt(name, j)
    ensures r.Some? ==> exists i: nat :: DateTokenAt(name, i) && r.value == name[i..i + 7]
                                    && forall j :: 0 <= j < i ==> !DateTokenAt(name, j)
  {
    match FirstDateTokenFrom(name, 0)
    case None => None
    case Some(i) => Some(name[i..i + 7])
  }

  /** The cleanup deletes `name`: it has a date token and `daysDiff(now, token)`
      is at least the threshold. */
  predicate Expired(name: string, now: string, daysDiff: (string, string) -> int, threshold: int) {
    DateToken(name).Some? && daysDiff(now, DateToken(name).value) >= threshold
  }

  /** The names of `names`, in order, that the `map` callback deletes. */
  function ExpiredNames(names: seq<string>, now: string, daysDiff: (string, string) -> int, threshold: int): (r: seq<string>)
    ensures |r| <= |names|
    ensures forall n :: n in r <==> n in names && Expired(n, now, daysDiff, threshold)
  {
    if names == [] then []
    else
      var rest := ExpiredNames(names[..|names| - 1], now, daysDiff, threshold);
      var last := names[|names| - 1];
      assert names == names[..|names| - 1] + [last];
      if Expired(last, now, daysDiff, threshold) then rest + [last] else rest
  }

  /** `ExpiredNames` over one more name of a list. */
  lemma ExpiredNamesStep(names: seq<string>, i: nat, now: string, daysDiff: (string, string) -> int, threshold: int)
    requires i < |names|
    ensures ExpiredNames(names[..i + 1], now, daysDiff, threshold) ==
      if Expired(names[i], now, daysDiff, threshold) then ExpiredNames(names[..i], now, daysDiff, threshold) + [names[i]]
      else ExpiredNames(names[..i], now, daysDiff, threshold)
  {
    assert names[..i + 1][..i] == names[..i];
  }

  /** The names of a log-directory listing that `cleanRotationFiles` deletes.
      An empty base name makes `new RegExp('^\\')` throw, so nothing is deleted. */
  function RotationVictims(listing: seq<string>, base: string, now: string,
                           daysDiff: (string, string) -> int, threshold: int): seq<string>
  {
    if base == [] then []
    else ExpiredNames(WithoutActiveLog(listing, base), now, daysDiff, threshold)
  }

  /** A listing name is deleted exactly when it does not start with the active
      log's base name, carries a date token, and that token is old enough. */
  lemma RotationVictimsExactly(listing: seq<string>, base: string, now: string,
                               daysDiff: (string, string) -> int, threshold: int, n: string)
    ensures n in RotationVictims(listing, base, now, daysDiff, threshold) <==>
            && base != []
            && n in listing
            && !MatchesActiveLog(base, n)
            && DateToken(n).Some?
            && daysDiff(now, DateToken(n).value) >= threshold
  {
  }

  /** A name with no date token is never deleted. */
  lemma UndatedNamesKept(listing: seq<string>, base: string, now: string,
                         daysDiff: (string, string) -> int, threshold: int, n: string)
    requires forall j :: 0 <= j ==> !DateTokenAt(n, j)
    ensures n !in RotationVictims(listing, base, now, daysDiff, threshold)
  {
  }

  /** A name that starts, ignoring case, with the active log's base name is never deleted. */
  lemma ActiveLogKept(listing: seq<string>, base: string, now: string,
                      daysDiff: (string, string) -> int, threshold: int, n: string)
    requires MatchesActiveLog(base, n)
    ensures n !in RotationVictims(listing, base, now, daysDiff, threshold)
  {
  }

  /** When every listed name is the active log (the filtered list is empty),
      nothing is deleted. */
  lemma NothingDeletedWhenFilteredEmpty(listing: seq<string>, base: string, now: string,
                                        daysDiff: (string, string) -> int, threshold: int)
    requires WithoutActiveLog(listing, base) == []
    ensures RotationVictims(listing, base, now, daysDiff, threshold) == []
  {
  }

  // ---------------------------------------------------------------------------
  // UTF-16 code units and the filter on concrete names

  /** Every character lies below U+10000, so each is one code unit. */
  predicate InBmp(s: string) {
    forall i :: 0 <= i < |s| ==> s[i] as int < 0x10000
  }

  lemma {:induction false} CodeUnitsAppend(a: string, b: string)
    ensures CodeUnits(a + b) == CodeUnits(a) + CodeUnits(b)
    decreases |a|
  {
    if a != [] {
      assert (a + b)[0] == a[0] && (a + b)[1..] == a[1..] + b;
      CodeUnitsAppend(a[1..], b);
      calc {
        CodeUnits(a + b);
        CharCodeUnits(a[0]) + CodeUnits(a[1..] + b);
        CharCodeUnits(a[0]) + (CodeUnits(a[1..]) + CodeUnits(b));
        (CharCodeUnits(a[0]) + CodeUnits(a[1..])) + CodeUnits(b);
      }
    } else {
      assert a + b == b;
    }
  }

  lemma {:induction false} CodeUnitsInBmp(s: string)
    requires InBmp(s)
    ensures |CodeUnits(s)| == |s| && forall i :: 0 <= i < |s| ==> CodeUnits(s)[i] == s[i] as int
    decreases |s|
  {
    if s != [] {
      CodeUnitsInBmp(s[1..]);
    }
  }

  /** A name whose first characters, all below U+10000, match the base name
      character by character is the active log, whatever follows. */
  lemma MatchesActiveLogByPrefix(base: string, head: string, rest: string)
    requires InBmp(head) && |head| == |base|
    ensures MatchesActiveLog(base, head + rest) <==>
              forall i :: 0 <= i < |base| ==> PatternUnitMatches(base, i, head[i] as int)
  {
    CodeUnitsAppend(head, rest);
    CodeUnitsInBmp(head);
    var units := CodeUnits(head + rest);
    forall i | 0 <= i < |base| ensures units[i] == head[i] as int {
      assert units[i] == CodeUnits(head)[i];
    }
  }

  /** A name whose first characters, all below U+10000, fail the pattern at
      some position is not the active log, whatever follows. */
  lemma MismatchInPrefix(base: string, head: string, rest: string, i: nat)
    requires InBmp(head) && i < |head| && i < |base|
    requires !PatternUnitMatches(base, i, head[i] as int)
    ensures !MatchesActiveLog(base, head + rest)
  {
    CodeUnitsAppend(head, rest);
    CodeUnitsInBmp(head);
    assert CodeUnits(head + rest)[i] == CodeUnits(head)[i];
  }

  /** The filter ignores ASCII case: every name starting with `ERROR.LOG` is
      the active log `error.log`. */
  lemma UpperCaseNameIsActiveLog(rest: string)
    ensures MatchesActiveLog("error.log", "ERROR.LOG" + rest)
  {
    MatchesActiveLogByPrefix("error.log", "ERROR.LOG", rest);
  }

  /** The unescaped `.` of the base name matches any character, so every name
      starting with `error_log` is the active log `error.log` as well. */
  lemma DotMatchesAnyCharacter(rest: string)
    ensures MatchesActiveLog("error.log", "error_log" + rest)
  {
    MatchesActiveLogByPrefix("error.log", "error_log", rest);
  }

  /** A name starting with `errors.` is not the active log `error.log`: after
      the wildcard takes `s`, `l` meets `.`. */
  lemma LongerWordIsNotActiveLog(rest: string)
    ensures !MatchesActiveLog("error.log", "errors." + rest)
  {
    MismatchInPrefix("error.log", "errors.", rest, 6);
  }

  /** The match runs over UTF-16 code units: for a character above U+10000 the
      unescaped `.` consumes only the high surrogate, and the next pattern
      letter meets the low surrogate and fails. So `error` followed by such a
      character is not the active log `error.log`, whatever follows. */
  lemma SurrogatePairIsTwoUnits(rest: string)
    ensures !MatchesActiveLog("error.log", "error\U{1F600}" + rest)
  {
    var head, emoji := "error", "\U{1F600}";
    assert head + emoji == "error\U{1F600}";
    CodeUnitsAppend(head, emoji);
    CodeUnitsAppend(head + emoji, rest);
    CodeUnitsInBmp(head);
    var units := CodeUnits(head + emoji + rest);
    assert units[6] == CharCodeUnits(emoji[0])[1] == 0xDE00;
    assert !PatternUnitMatches("error.log", 6, units[6]);
  }

  /** Such a name is therefore cleaned up like any other rotated file: it is
      deleted once its date token is old enough. */
  lemma SurrogateNameDeleted(listing: seq<string>, rest: string, now: string,
                             daysDiff: (string, string) -> int, threshold: int)
    requires "error\U{1F600}" + rest in listing
    requires Expired("error\U{1F600}" + rest, now, daysDiff, threshold)
    ensures "error\U{1F600}" + rest in RotationVictims(listing, "error.log", now, daysDiff, threshold)
  {
    SurrogatePairIsTwoUnits(rest);
  }
}
