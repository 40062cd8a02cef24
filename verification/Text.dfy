/** The text primitives of the line protocol: decimal numbers of a 64-bit machine, and splitting at white space. */
module Text {
  import opened Nodes

  const MIN_INT: int := -0x8000_0000_0000_0000
  const MAX_INT: int := 0x7fff_ffff_ffff_ffff

  predicate Fits(n: int) {
    MIN_INT <= n <= MAX_INT
  }

  // ---------------------------------------------------------------- numbers

  function Digit(d: nat): char
    requires d < 10
  {
    '0' + d as char
  }

  predicate IsDigit(c: char) {
    '0' <= c <= '9'
  }

  function Digits(n: nat): string {
    if n < 10 then [Digit(n)] else Digits(n / 10) + [Digit(n % 10)]
  }

  /** `%d`. */
  function Format(n: int): string {
    if n < 0 then "-" + Digits(-n) else Digits(n)
  }

  function Value(s: string): nat
    requires forall c <- s :: IsDigit(c)
  {
    if s == "" then 0
    else
      assert IsDigit(s[|s| - 1]);
      10 * Value(s[..|s| - 1]) + (s[|s| - 1] - '0') as nat
  }

  function Unsigned(s: string): Option<nat> {
    if s != "" && forall c <- s :: IsDigit(c) then Some(Value(s)) else None
  }

  /** `strconv.Atoi`: an optional sign and digits, within 64 bits. */
  function Atoi(s: string): Option<int> {
    var signed := s != "" && (s[0] == '-' || s[0] == '+');
    match Unsigned(if signed then s[1..] else s)
    case None => None
    case Some(magnitude) =>
      var n: int := if signed && s[0] == '-' then -(magnitude as int) else magnitude;
      if Fits(n) then Some(n) else None
  }

  lemma {:induction false} DigitsParse(n: nat)
    ensures Digits(n) != "" && forall c <- Digits(n) :: IsDigit(c)
    ensures Value(Digits(n)) == n
  {
    if n >= 10 {
      DigitsParse(n / 10);
      var s := Digits(n);
      assert s[..|s| - 1] == Digits(n / 10) && s[|s| - 1] == Digit(n % 10);
      forall c <- s
        ensures IsDigit(c)
      {
        assert c in Digits(n / 10) || c == Digit(n % 10);
      }
    }
  }

  /** Parsing recovers what was formatted, exactly for the integers of 64 bits. */
  lemma AtoiFormat(n: int)
    ensures Atoi(Format(n)) == if Fits(n) then Some(n) else None
  {
    if n < 0 {
      DigitsParse(-n);
      assert Format(n)[1..] == Digits(-n);
    } else {
      DigitsParse(n);
      assert Digits(n)[0] in Digits(n) && IsDigit(Digits(n)[0]);
    }
  }

  // ---------------------------------------------------------------- white space

  /** `unicode.IsSpace`. */
  predicate IsSpace(c: char) {
    || c == ' ' || '\t' <= c <= '\r' || c == '\U{85}' || c == '\U{A0}' || c == '\U{1680}'
    || '\U{2000}' <= c <= '\U{200A}' || c == '\U{2028}' || c == '\U{2029}' || c == '\U{202F}' || c == '\U{205F}'
    || c == '\U{3000}'
  }

  predicate IsWord(s: string) {
    s != "" && forall c <- s :: !IsSpace(c)
  }

  function FirstWord(s: string): (w: string)
    ensures |w| <= |s| && w == s[..|w|]
    ensures s != "" && !IsSpace(s[0]) ==> w != ""
  {
    if s == "" || IsSpace(s[0]) then "" else [s[0]] + FirstWord(s[1..])
  }

  /** `strings.Fields`: the words between runs of white space. */
  function Fields(s: string): seq<string>
    decreases |s|
  {
    if s == "" then []
    else if IsSpace(s[0]) then Fields(s[1..])
    else [FirstWord(s)] + Fields(s[|FirstWord(s)|..])
  }

  /** `strings.TrimSpace`. */
  function TrimSpace(s: string): string
    decreases |s|
  {
    if s != "" && IsSpace(s[0]) then TrimSpace(s[1..])
    else if s != "" && IsSpace(s[|s| - 1]) then TrimSpace(s[..|s| - 1])
    else s
  }

  /** Words separated by one space each. */
  function Join(words: seq<string>): string {
    if words == [] then "" else if |words| == 1 then words[0] else words[0] + " " + Join(words[1..])
  }

  predicate AreWords(words: seq<string>) {
    forall w <- words :: IsWord(w)
  }

  lemma {:induction false} FirstWordStops(w: string, rest: string)
    requires (forall c <- w :: !IsSpace(c)) && (rest == "" || IsSpace(rest[0]))
    ensures FirstWord(w + rest) == w
  {
    if w == "" {
      assert w + rest == rest;
    } else {
      assert (w + rest)[0] == w[0] && (w + rest)[1..] == w[1..] + rest;
      FirstWordStops(w[1..], rest);
    }
  }

  /** Any run of white space separates, before, between and after words. */
  lemma {:induction false} FieldsSkip(blank: string, s: string)
    requires forall c <- blank :: IsSpace(c)
    ensures Fields(blank + s) == Fields(s)
  {
    if blank == "" {
      assert blank + s == s;
    } else {
      assert (blank + s)[0] == blank[0] && (blank + s)[1..] == blank[1..] + s;
      FieldsSkip(blank[1..], s);
    }
  }

  /** A word ends only at white space. */
  lemma FieldsWord(w: string, rest: string)
    requires IsWord(w) && (rest == "" || IsSpace(rest[0]))
    ensures Fields(w + rest) == [w] + Fields(rest)
  {
    FirstWordStops(w, rest);
    assert (w + rest)[0] == w[0] && (w + rest)[|w|..] == rest;
  }

  /** Splitting recovers the words that were joined. */
  lemma {:induction false} FieldsJoin(words: seq<string>)
    requires AreWords(words)
    ensures Fields(Join(words)) == words
  {
    if words != [] {
      var w := words[0];
      assert w in words && IsWord(w);
      if |words| == 1 {
        assert w + "" == w;
        FieldsWord(w, "");
      } else {
        var rest := " " + Join(words[1..]);
        assert Join(words) == w + rest;
        FieldsWord(w, rest);
        FieldsSkip(" ", Join(words[1..]));
        FieldsJoin(words[1..]);
      }
    }
  }

  lemma {:induction false} JoinEnds(words: seq<string>)
    requires AreWords(words) && words != []
    ensures var s := Join(words); s != "" && !IsSpace(s[0]) && !IsSpace(s[|s| - 1])
  {
    var w := words[0];
    assert w in words && IsWord(w);
    if |words| == 1 {
      assert Join(words) == w;
    } else {
      JoinEnds(words[1..]);
      var last := Join(words[1..]);
      assert Join(words) == w + " " + last;
      assert Join(words)[|Join(words)| - 1] == last[|last| - 1];
    }
  }

  /** The newline of the wire is trimmed off, and nothing else. */
  lemma TrimLine(words: seq<string>)
    requires AreWords(words) && words != []
    ensures TrimSpace(Join(words) + "\n") == Join(words)
  {
    JoinEnds(words);
    var line := Join(words) + "\n";
    assert line[0] == Join(words)[0] && line[..|line| - 1] == Join(words);
  }

  lemma FormatIsWord(n: int)
    ensures IsWord(Format(n))
  {
    DigitsParse(if n < 0 then -n else n);
  }
}
