/** Splitting text, reading an instance number off a host name, and the topics named after instances. */
module Topics {
  import opened Options

  // ---------------------------------------------------------------- split and join

  /** The index of the first d in s, or |s|. */
  function Find(s: string, d: char): (k: nat)
    ensures k <= |s| && d !in s[..k] && (k < |s| ==> s[k] == d)
  {
    if s == [] || s[0] == d then 0
    else
      assert s[..Find(s[1..], d) + 1] == [s[0]] + s[1..][..Find(s[1..], d)];
      Find(s[1..], d) + 1
  }

  lemma {:induction false} FindIs(s: string, d: char, k: nat)
    requires k <= |s| && d !in s[..k] && (k < |s| ==> s[k] == d)
    ensures Find(s, d) == k
  {
    if k > 0 {
      assert s[0] == s[..k][0];
      assert s[1..][..k - 1] == s[..k][1..];
      FindIs(s[1..], d, k - 1);
    }
  }

  /** The pieces between the delimiters; a delimiter at the end closes a piece and opens none. */
  function Pieces(s: string, d: char): seq<string> {
    if s == [] then []
    else
      var k := Find(s, d);
      if k == |s| then [s] else [s[..k]] + Pieces(s[k + 1..], d)
  }

  function Join(l: seq<string>, d: char): string {
    if l == [] then [] else if |l| == 1 then l[0] else l[0] + [d] + Join(l[1..], d)
  }

  /** A text stream read line by line. */
  class StringStream {
    const text: string
    var pos: nat
    var good: bool

    ghost predicate Valid()
      reads this
    {
      pos <= |text| && (!good ==> pos == |text|)
    }

    constructor (text: string)
      ensures Valid() && good && pos == 0 && this.text == text
    {
      this.text := text;
      pos := 0;
      good := true;
    }

    /** The text not read yet. */
    ghost function Left(): string
      reads this
      requires Valid()
    {
      text[pos..]
    }

    /** Read up to the next delimiter, which is dropped, or to the end, which spends the stream. Reading
        nothing at the end fails. */
    method GetLine(delim: char) returns (ok: bool, line: string)
      requires Valid()
      modifies this
      ensures Valid()
      ensures ok <==> old(Left()) != []
      ensures ok ==> line == old(Left())[..Find(old(Left()), delim)] && Left() == Rest(old(Left()), delim)
      ensures !ok ==> Left() == []
    {
      line := "";
      ok := good && pos < |text|;
      if !ok {
        good := false;
        return;
      }
      ghost var start := pos;
      while pos < |text| && text[pos] != delim
        invariant start <= pos <= |text|
        invariant line == text[start..][..pos - start] && delim !in line && good
        decreases |text| - pos
      {
        line := line + [text[pos]];
        pos := pos + 1;
      }
      FindIs(text[start..], delim, pos - start);
      if pos < |text| {
        assert text[start..][pos - start + 1..] == text[pos + 1..];
        pos := pos + 1;
      } else {
        good := false;
      }
    }
  }

  /** What is left of a text once its first piece is taken. */
  function Rest(s: string, d: char): string {
    if Find(s, d) < |s| then s[Find(s, d) + 1..] else []
  }

  lemma FirstPiece(s: string, d: char)
    requires s != []
    ensures Pieces(s, d) == [s[..Find(s, d)]] + Pieces(Rest(s, d), d)
    ensures |Rest(s, d)| < |s|
  {
    if Find(s, d) == |s| {
      assert s[..|s|] == s;
      assert Pieces([], d) == [];
    }
  }

  method Split(str: string, delim: char) returns (strings: seq<string>)
    ensures strings == Pieces(str, delim)
  {
    hide Pieces, Find, Rest;
    strings := [];
    var stream := new StringStream(str);
    NoPieces(delim);
    ghost var left := stream.Left();
    assert left == str;
    var ok, s := stream.GetLine(delim);
    while ok
      invariant stream.Valid() && (ok <==> left != [])
      invariant ok ==> s == left[..Find(left, delim)] && stream.Left() == Rest(left, delim)
      invariant Pieces(str, delim) == strings + Pieces(left, delim)
      decreases |left|
    {
      FirstPiece(left, delim);
      strings := strings + [s];
      left := stream.Left();
      ok, s := stream.GetLine(delim);
    }
  }

  lemma NoPieces(d: char)
    ensures Pieces([], d) == []
  {
  }

  /** How often d occurs in s. */
  function Count(s: string, d: char): nat {
    if s == [] then 0 else Count(s[1..], d) + if s[0] == d then 1 else 0
  }

  /** s is not empty and its last character is d. */
  predicate EndsIn(s: string, d: char) { s != [] && s[|s| - 1] == d }

  lemma JoinMore(p: string, l: seq<string>, d: char)
    ensures Join([p] + l, d) == if l == [] then p else p + [d] + Join(l, d)
  {
    assert ([p] + l)[1..] == l;
  }

  /** Joining the pieces gives the text back, except for a delimiter at its end. */
  lemma {:induction false} JoinOfSplit(s: string, d: char)
    ensures Join(Pieces(s, d), d) == if EndsIn(s, d) then s[..|s| - 1] else s
    decreases |s|
  {
    hide Find, Join, Pieces, Rest, EndsIn;
    if s == [] {
      NoPieces(d);
      NothingJoined(d);
      NothingEnds(d);
    } else {
      var p, rest := s[..Find(s, d)], Rest(s, d);
      FirstPiece(s, d);
      JoinMore(p, Pieces(rest, d), d);
      SomePieces(rest, d);
      if rest == [] {
        OnePiece(s, d);
      } else {
        JoinOfSplit(rest, d);
        AroundFirst(s, d);
        ButLast(p, d, rest);
      }
    }
  }

  lemma NothingEnds(d: char)
    ensures !EndsIn([], d)
  {
  }

  lemma SomePieces(s: string, d: char)
    ensures Pieces(s, d) == [] <==> s == []
  {
  }

  lemma OnePiece(s: string, d: char)
    requires s != [] && Rest(s, d) == []
    ensures s[..Find(s, d)] == if EndsIn(s, d) then s[..|s| - 1] else s
  {
    assert s[..|s|] == s;
  }

  lemma AroundFirst(s: string, d: char)
    requires Rest(s, d) != []
    ensures s == s[..Find(s, d)] + [d] + Rest(s, d) && EndsIn(s, d) == EndsIn(Rest(s, d), d)
  {
  }

  lemma ButLast(p: string, d: char, rest: string)
    requires rest != []
    ensures (p + [d] + rest)[..|p + [d] + rest| - 1] == p + [d] + rest[..|rest| - 1]
  {
  }

  lemma NothingJoined(d: char)
    ensures Join([], d) == []
  {
  }

  lemma {:induction false} PiecesAreFree(s: string, d: char)
    ensures forall p :: p in Pieces(s, d) ==> d !in p
  {
    if s != [] {
      var k := Find(s, d);
      if k < |s| {
        PiecesAreFree(s[k + 1..], d);
      }
    }
  }

  lemma FindPast(p: string, d: char, rest: string)
    requires d !in p
    ensures Find(p + [d] + rest, d) == |p|
  {
    var s := p + [d] + rest;
    assert s[..|p|] == p;
    FindIs(s, d, |p|);
  }

  lemma PiecesOfMore(p: string, d: char, rest: string)
    requires d !in p
    ensures Pieces(p + [d] + rest, d) == [p] + Pieces(rest, d)
  {
    hide Pieces, Find;
    var s := p + [d] + rest;
    FindPast(p, d, rest);
    FirstPiece(s, d);
    assert s[..|p|] == p && s[|p| + 1..] == rest;
  }

  lemma PiecesOfOne(p: string, d: char)
    requires d !in p && p != []
    ensures Pieces(p, d) == [p]
  {
    assert p[..|p|] == p;
    FindIs(p, d, |p|);
  }

  lemma {:induction false} SplitOfJoinBack(l: seq<string>, d: char)
    requires forall p :: p in l ==> d !in p
    requires l == [] || l[|l| - 1] != []
    ensures Pieces(Join(l, d), d) == l
  {
    hide Pieces, Find, Join;
    if l == [] {
      NothingJoined(d);
      NoPieces(d);
    } else {
      assert l == [l[0]] + l[1..];
      JoinMore(l[0], l[1..], d);
      if |l| == 1 {
        PiecesOfOne(l[0], d);
      } else {
        SplitOfJoinBack(l[1..], d);
        PiecesOfMore(l[0], d, Join(l[1..], d));
      }
    }
  }

  /** The last piece is empty just when the text ends in two delimiters or is one delimiter. */
  lemma {:induction false} JoinEndsIn(l: seq<string>, d: char)
    requires |l| > 1 && l[|l| - 1] == []
    ensures EndsIn(Join(l, d), d)
  {
    if |l| > 2 {
      JoinEndsIn(l[1..], d);
    }
  }

  lemma OnlyThenBack(l: seq<string>, d: char)
    requires Pieces(Join(l, d), d) == l
    ensures (forall p :: p in l ==> d !in p) && (l == [] || l[|l| - 1] != [])
  {
    PiecesAreFree(Join(l, d), d);
    if |l| > 1 && l[|l| - 1] == [] {
      JoinEndsIn(l, d);
      JoinOfSplit(Join(l, d), d);
    }
  }

  /** Splitting gives the joined list back exactly if no piece holds the delimiter and the last is not empty. */
  lemma SplitOfJoin(l: seq<string>, d: char)
    ensures Pieces(Join(l, d), d) == l <==> (forall p :: p in l ==> d !in p) && (l == [] || l[|l| - 1] != [])
  {
    if (forall p :: p in l ==> d !in p) && (l == [] || l[|l| - 1] != []) {
      SplitOfJoinBack(l, d);
    } else if Pieces(Join(l, d), d) == l {
      OnlyThenBack(l, d);
    }
  }

  lemma {:induction false} CountSplit(a: string, b: string, d: char)
    ensures Count(a + b, d) == Count(a, d) + Count(b, d)
  {
    if a == [] {
      assert a + b == b;
    } else {
      assert (a + b)[1..] == a[1..] + b;
      CountSplit(a[1..], b, d);
    }
  }

  lemma {:induction false} CountNone(s: string, d: char)
    requires d !in s
    ensures Count(s, d) == 0
  {
    if s != [] {
      CountNone(s[1..], d);
    }
  }

  /** There are as many pieces as delimiters, and one more if the text is not empty and does not end in one. */
  lemma {:induction false} PieceCount(s: string, d: char)
    ensures |Pieces(s, d)| == Count(s, d) + if s != [] && !EndsIn(s, d) then 1 else 0
    decreases |s|
  {
    hide Pieces, Rest, Count, EndsIn;
    if s == [] {
      NoPieces(d);
      CountNone([], d);
    } else {
      FirstPiece(s, d);
      CountOfFirst(s, d);
      if Rest(s, d) == [] {
        NoPieces(d);
      } else {
        PieceCount(Rest(s, d), d);
        AroundFirst(s, d);
      }
    }
  }

  /** The first piece holds no delimiter, and at most one stands between it and the rest. */
  lemma CountOfFirst(s: string, d: char)
    requires s != []
    ensures Rest(s, d) == [] ==> Count(s, d) + (if EndsIn(s, d) then 0 else 1) == 1
    ensures Rest(s, d) != [] ==> Count(s, d) == 1 + Count(Rest(s, d), d)
  {
    var k := Find(s, d);
    CountNone(s[..k], d);
    if k < |s| {
      var rest := s[k + 1..];
      assert s == s[..k] + ([d] + rest);
      CountSplit(s[..k], [d] + rest, d);
      assert ([d] + rest)[1..] == rest;
    } else {
      assert s[..k] == s;
    }
  }

  // ---------------------------------------------------------------- decimal numbers

  predicate IsDigit(c: char) { '0' <= c <= '9' }

  function Digit(c: char): (n: nat)
    requires IsDigit(c)
    ensures n < 10
  {
    c as int - '0' as int
  }

  function DigitChar(n: nat): (c: char)
    requires n < 10
    ensures IsDigit(c) && Digit(c) == n
  {
    '0' + n as char
  }

  /** The usual decimal form, without leading zeros. */
  function Decimal(n: nat): (s: string)
    ensures s != [] && forall i :: 0 <= i < |s| ==> IsDigit(s[i])
  {
    if n < 10 then [DigitChar(n)] else Decimal(n / 10) + [DigitChar(n % 10)]
  }

  /** The length of the run of digits s starts with. */
  function Digits(s: string): (k: nat)
    ensures k <= |s| && forall i :: 0 <= i < k ==> IsDigit(s[i])
    ensures k < |s| ==> !IsDigit(s[k])
  {
    if s == [] || !IsDigit(s[0]) then 0 else 1 + Digits(s[1..])
  }

  function Value(s: string): nat
    requires forall i :: 0 <= i < |s| ==> IsDigit(s[i])
  {
    if s == [] then 0 else Value(s[..|s| - 1]) * 10 + Digit(s[|s| - 1])
  }

  lemma {:induction false} ValueOfDecimal(n: nat)
    ensures Value(Decimal(n)) == n
  {
    if n >= 10 {
      ValueOfDecimal(n / 10);
      assert Decimal(n)[..|Decimal(n)| - 1] == Decimal(n / 10);
    } else {
      assert Decimal(n)[..0] == [];
    }
  }

  lemma AllDigits(s: string)
    requires forall i :: 0 <= i < |s| ==> IsDigit(s[i])
    ensures Digits(s) == |s|
  {
  }

  // ---------------------------------------------------------------- the instance of a container

  const ULONG_RANGE := 0x1_0000_0000_0000_0000
  const UINT32_RANGE := 0x1_0000_0000

  predicate IsSpace(c: char) { c == ' ' || '\t' <= c <= '\r' }

  function SkipSpaces(s: string): string {
    if s != [] && IsSpace(s[0]) then SkipSpaces(s[1..]) else s
  }

  /** What stoul makes of s in base 10: white space, a sign, a run of digits, and anything after it. It throws
      if there is no digit or the number does not fit; a minus sign negates within the range. */
  function Stoul(s: string): Option<nat> {
    var t := SkipSpaces(s);
    var minus := t != [] && t[0] == '-';
    var u := if t != [] && (t[0] == '-' || t[0] == '+') then t[1..] else t;
    var k := Digits(u);
    if k == 0 || Value(u[..k]) >= ULONG_RANGE then None
    else Some(if minus && Value(u[..k]) > 0 then ULONG_RANGE - Value(u[..k]) else Value(u[..k]))
  }

  /** The index of the last c in s, if there is one. */
  function FindLast(s: string, c: char): (r: Option<nat>)
    ensures r.Some? ==> r.value < |s| && s[r.value] == c && c !in s[r.value + 1..]
    ensures r.None? ==> c !in s
  {
    if s == [] then None
    else if s[|s| - 1] == c then Some(|s| - 1)
    else
      var r := FindLast(s[..|s| - 1], c);
      assert r.Some? ==> s[r.value + 1..] == s[..|s| - 1][r.value + 1..] + [s[|s| - 1]];
      r
  }

  /** The instance number a host name ends in; 0 if it has none that can be read. */
  function ContainerInstance(hostname: string): nat {
    match FindLast(hostname, '-')
    case None => 0
    case Some(pos) =>
      match Stoul(hostname[pos + 1..])
      case None => 0
      case Some(n) => n % UINT32_RANGE
  }

  lemma {:induction false} FindLastIs(s: string, c: char, k: nat)
    requires k < |s| && s[k] == c && c !in s[k + 1..]
    ensures FindLast(s, c) == Some(k)
  {
    if k < |s| - 1 {
      assert s[|s| - 1] == s[k + 1..][|s| - k - 2];
      assert s[..|s| - 1][k + 1..] == s[k + 1..][..|s| - k - 2];
      FindLastIs(s[..|s| - 1], c, k);
    }
  }

  lemma LastDash(base: string, tail: string)
    requires '-' !in tail
    ensures FindLast(base + "-" + tail, '-') == Some(|base|)
  {
    assert (base + "-" + tail)[|base| + 1..] == tail;
    FindLastIs(base + "-" + tail, '-', |base|);
  }

  lemma StoulOfDecimal(n: nat)
    ensures Stoul(Decimal(n)) == if n < ULONG_RANGE then Some(n) else None
  {
    var s := Decimal(n);
    assert IsDigit(s[0]);
    AllDigits(s);
    assert s[..|s|] == s;
    ValueOfDecimal(n);
  }

  lemma Fits32(n: nat)
    ensures n % UINT32_RANGE == n <==> n < UINT32_RANGE
  {
  }

  /** A host name made of any base name and a decimal number is read as that number in 32 bits, or as 0 if it
      does not fit in 64; so the number comes back exactly if it is below 2^32. */
  lemma InstanceRoundTrip(base: string, n: nat)
    ensures ContainerInstance(base + "-" + Decimal(n)) == if n < ULONG_RANGE then n % UINT32_RANGE else 0
    ensures ContainerInstance(base + "-" + Decimal(n)) == n <==> n < UINT32_RANGE
  {
    hide Stoul, FindLast, Decimal;
    var hostname := base + "-" + Decimal(n);
    LastDash(base, Decimal(n));
    assert hostname[|base| + 1..] == Decimal(n);
    StoulOfDecimal(n);
    Fits32(n);
  }

  /** A host name without a dash has instance 0. */
  lemma NoDash(hostname: string)
    requires '-' !in hostname
    ensures ContainerInstance(hostname) == 0
  {
  }

  lemma {:induction false} SkipsSpaces(spaces: string, t: string)
    requires (forall i :: 0 <= i < |spaces| ==> IsSpace(spaces[i])) && (t == [] || !IsSpace(t[0]))
    ensures SkipSpaces(spaces + t) == t
  {
    if spaces == [] {
      assert spaces + t == t;
    } else {
      assert (spaces + t)[1..] == spaces[1..] + t;
      SkipsSpaces(spaces[1..], t);
    }
  }

  lemma {:induction false} DigitsThen(digits: string, rest: string)
    requires (forall i :: 0 <= i < |digits| ==> IsDigit(digits[i])) && (rest == [] || !IsDigit(rest[0]))
    ensures Digits(digits + rest) == |digits|
  {
    if digits == [] {
      assert digits + rest == rest;
    } else {
      assert (digits + rest)[1..] == digits[1..] + rest;
      DigitsThen(digits[1..], rest);
    }
  }

  /** White space, perhaps a plus sign, digits, and anything that does not go on with a digit. */
  lemma StoulOfNumber(spaces: string, plus: bool, digits: string, rest: string)
    requires forall i :: 0 <= i < |spaces| ==> IsSpace(spaces[i])
    requires digits != [] && forall i :: 0 <= i < |digits| ==> IsDigit(digits[i])
    requires rest == [] || !IsDigit(rest[0])
    ensures Stoul(spaces + ((if plus then "+" else "") + (digits + rest)))
         == if Value(digits) < ULONG_RANGE then Some(Value(digits)) else None
  {
    hide Value;
    var u := digits + rest;
    var t := (if plus then "+" else "") + u;
    assert if plus then t[0] == '+' && t[1..] == u else t == u;
    SkipsSpaces(spaces, t);
    DigitsThen(digits, rest);
    assert u[..|digits|] == digits;
  }

  lemma StoulOfNoNumber(spaces: string, plus: bool, rest: string)
    requires forall i :: 0 <= i < |spaces| ==> IsSpace(spaces[i])
    requires rest == [] || (!IsDigit(rest[0]) && (plus || (!IsSpace(rest[0]) && rest[0] != '+' && rest[0] != '-')))
    ensures Stoul(spaces + ((if plus then "+" else "") + rest)) == None
  {
    var t := (if plus then "+" else "") + rest;
    assert if plus then t[0] == '+' && t[1..] == rest else t == rest;
    SkipsSpaces(spaces, t);
  }

  lemma InstanceOfTail(base: string, tail: string)
    requires '-' !in tail
    ensures ContainerInstance(base + "-" + tail) == if Stoul(tail).Some? then Stoul(tail).value % UINT32_RANGE else 0
  {
    hide Stoul, FindLast;
    LastDash(base, tail);
    assert (base + "-" + tail)[|base| + 1..] == tail;
  }

  /** What follows the last dash may have white space and a plus sign before its digits, and any text after them. */
  lemma InstanceOfNumber(base: string, spaces: string, plus: bool, digits: string, rest: string)
    requires forall i :: 0 <= i < |spaces| ==> IsSpace(spaces[i])
    requires digits != [] && forall i :: 0 <= i < |digits| ==> IsDigit(digits[i])
    requires (rest == [] || !IsDigit(rest[0])) && '-' !in rest
    ensures ContainerInstance(base + "-" + (spaces + ((if plus then "+" else "") + (digits + rest))))
         == if Value(digits) < ULONG_RANGE then Value(digits) % UINT32_RANGE else 0
  {
    hide Stoul, ContainerInstance, Value;
    StoulOfNumber(spaces, plus, digits, rest);
    InstanceOfTail(base, spaces + ((if plus then "+" else "") + (digits + rest)));
  }

  /** Without a digit there, the instance is 0. */
  lemma InstanceOfNoNumber(base: string, spaces: string, plus: bool, rest: string)
    requires forall i :: 0 <= i < |spaces| ==> IsSpace(spaces[i])
    requires rest == [] || (!IsDigit(rest[0]) && (plus || (!IsSpace(rest[0]) && rest[0] != '+')))
    requires '-' !in rest
    ensures ContainerInstance(base + "-" + (spaces + ((if plus then "+" else "") + rest))) == 0
  {
    hide Stoul, ContainerInstance;
    assert rest != [] ==> rest[0] in rest;
    StoulOfNoNumber(spaces, plus, rest);
    InstanceOfTail(base, spaces + ((if plus then "+" else "") + rest));
  }

  lemma MoreDigits(n: nat)
    ensures Decimal(n) == if n < 10 then [DigitChar(n)] else Decimal(n / 10) + [DigitChar(n % 10)]
  {
  }

  lemma SixDigits()
    ensures Decimal(429496) == "429496"
  {
    hide Decimal;
    MoreDigits(4);
    MoreDigits(42);
    MoreDigits(429);
    MoreDigits(4294);
    MoreDigits(42949);
    MoreDigits(429496);
  }

  lemma NineDigits()
    ensures Decimal(429496729) == "429496729"
  {
    hide Decimal;
    SixDigits();
    MoreDigits(4294967);
    MoreDigits(42949672);
    MoreDigits(429496729);
  }

  lemma LargeDecimals()
    ensures Decimal(4294967295) == "4294967295" && Decimal(4294967299) == "4294967299"
  {
    hide Decimal;
    NineDigits();
    MoreDigits(4294967295);
    MoreDigits(4294967299);
  }

  /** A number from 2^32 on is cut off, one from 2^64 on is not read at all. */
  lemma LargeInstances()
    ensures ContainerInstance("web-4294967295") == 4294967295
    ensures ContainerInstance("web-4294967299") == 3
    ensures ContainerInstance("web-" + Decimal(18446744073709551615)) == 4294967295
    ensures ContainerInstance("web-" + Decimal(18446744073709551617)) == 0
  {
    hide ContainerInstance, Decimal;
    LargeDecimals();
    assert "web" + "-" + "4294967295" == "web-4294967295";
    assert "web" + "-" + "4294967299" == "web-4294967299";
    assert forall s: string :: "web" + "-" + s == "web-" + s;
    InstanceRoundTrip("web", 4294967295);
    InstanceRoundTrip("web", 4294967299);
    InstanceRoundTrip("web", 18446744073709551615);
    InstanceRoundTrip("web", 18446744073709551617);
  }

  /** Host names without a dash, or without a number after the last one. */
  lemma NamesWithoutNumber()
    ensures ContainerInstance("myhost") == 0
    ensures ContainerInstance("web-") == 0 && ContainerInstance("web-abc") == 0
  {
    hide ContainerInstance;
    NoDash("myhost");
    InstanceOfNoNumber("web", "", false, "");
    InstanceOfNoNumber("web", "", false, "abc");
    assert "web" + "-" + ("" + ("" + "")) == "web-";
    assert "web" + "-" + ("" + ("" + "abc")) == "web-abc";
  }

  /** Host names with more than a number after the last dash. */
  lemma OddHostNames()
    ensures ContainerInstance("web-a-12b") == 12 && ContainerInstance("web-007") == 7
    ensures ContainerInstance("web-\t +7") == 7
  {
    hide ContainerInstance, Value;
    OddValues();
    InstanceOfNumber("web-a", "", false, "12", "b");
    InstanceOfNumber("web", "", false, "007", "");
    InstanceOfNumber("web", "\t ", true, "7", "");
    assert "web-a" + "-" + ("" + ("" + ("12" + "b"))) == "web-a-12b";
    assert "web" + "-" + ("" + ("" + ("007" + ""))) == "web-007";
    assert "web" + "-" + ("\t " + ("+" + ("7" + ""))) == "web-\t +7";
  }

  lemma OddValues()
    ensures Value("12") == 12 && Value("007") == 7 && Value("7") == 7
  {
    assert "7"[..0] == "" && Value("7") == 7;
    assert "12"[..1] == "1" && "1"[..0] == "" && Value("1") == 1;
    assert "007"[..2] == "00" && "00"[..1] == "0" && "0"[..0] == "" && Value("0") == 0 && Value("00") == 0;
  }

  // ---------------------------------------------------------------- topics of instances

  datatype Direction = Ingress | Egress

  function Suffix(d: Direction): string { if d.Ingress? then "-ingress" else "-egress" }

  /** The name an instance goes by. */
  function InstanceName(name: string, instance: nat): string { name + "-" + Decimal(instance) }

  /** The topic an instance publishes to (ingress) or subscribes to (egress). */
  function TopicOf(name: string, instance: nat, d: Direction): string { InstanceName(name, instance) + Suffix(d) }

  lemma InstanceNameInjective(name: string, i: nat, name': string, j: nat)
    requires InstanceName(name, i) == InstanceName(name', j)
    ensures name == name' && i == j
  {
    LastDash(name, Decimal(i));
    LastDash(name', Decimal(j));
    assert InstanceName(name, i)[..|name|] == name;
    assert InstanceName(name', j)[..|name|] == name';
    assert InstanceName(name, i)[|name| + 1..] == Decimal(i);
    assert InstanceName(name', j)[|name| + 1..] == Decimal(j);
    ValueOfDecimal(i);
    ValueOfDecimal(j);
  }

  /** After the base name, a topic has an 's' only in its last two places. */
  lemma TailOfTopic(name: string, i: nat, d: Direction, k: nat)
    requires |name| <= k < |TopicOf(name, i, d)|
    ensures var t := TopicOf(name, i, d); |t| >= 8 && (t[k] == 's' <==> k >= |t| - 2) && t[|t| - 3] == 'e'
  {
    var head := InstanceName(name, i);
    if k < |head| {
      if k > |name| {
        assert head[k] == Decimal(i)[k - |name| - 1];
      }
    }
  }

  /** The end of a topic tells its direction, and the rest is the name of the instance. */
  lemma TopicParts(name: string, i: nat, d: Direction)
    ensures var t := TopicOf(name, i, d);
      && |t| >= |Suffix(d)| >= 7 && t[..|t| - |Suffix(d)|] == InstanceName(name, i)
      && (t[|t| - 7] == 'i' <==> d.Ingress?)
  {
  }

  lemma TopicsEqual(name: string, i: nat, d: Direction, name': string, j: nat, d': Direction)
    requires TopicOf(name, i, d) == TopicOf(name', j, d')
    ensures name == name' && i == j && d == d'
  {
    hide TopicOf, InstanceName;
    TopicParts(name, i, d);
    TopicParts(name', j, d');
    InstanceNameInjective(name, i, name', j);
  }

  lemma StartsWithName(name: string, i: nat, d: Direction)
    ensures name <= TopicOf(name, i, d) && |name| < |TopicOf(name, i, d)|
  {
  }

  /** A topic that reaches past the base name of another and is a prefix of it is all of it, because both end in
      the only two places after the base name that hold an 's'. */
  lemma PrefixIsWhole(name: string, i: nat, d: Direction, name': string, j: nat, d': Direction)
    requires TopicOf(name, i, d) <= TopicOf(name', j, d') && |name'| < |TopicOf(name, i, d)|
    ensures TopicOf(name, i, d) == TopicOf(name', j, d')
  {
    hide TopicOf;
    var t := TopicOf(name, i, d);
    var t' := TopicOf(name', j, d');
    StartsWithName(name, i, d);
    TailOfTopic(name, i, d, |t| - 1);
    TailOfTopic(name', j, d', |t| - 1);
    LastButOne(name, i, d);
    assert t'[|t| - 1] == t[|t| - 1] && t'[|t| - 2] == t[|t| - 2];
  }

  lemma LastButOne(name: string, i: nat, d: Direction)
    ensures |TopicOf(name, i, d)| >= 8 && TopicOf(name, i, d)[|TopicOf(name, i, d)| - 2] == 's'
  {
  }

  /** One instance's topic is a prefix of another's exactly if they are the same, or the base name of the
      other already starts with the whole of the first topic. */
  lemma TopicPrefix(name: string, i: nat, d: Direction, name': string, j: nat, d': Direction)
    ensures TopicOf(name, i, d) <= TopicOf(name', j, d')
      <==> (name == name' && i == j && d == d') || TopicOf(name, i, d) <= name'
  {
    var t := TopicOf(name, i, d);
    var t' := TopicOf(name', j, d');
    hide TopicOf;
    StartsWithName(name', j, d');
    if t <= t' && |t| > |name'| {
      PrefixIsWhole(name, i, d, name', j, d');
      TopicsEqual(name, i, d, name', j, d');
    } else if t <= name' {
      assert t == t'[..|t|];
    }
  }

  /** Among instances of one base name, no topic is a prefix of another. */
  lemma InstanceTopicsPrefixFree(name: string, i: nat, d: Direction, j: nat, d': Direction)
    ensures TopicOf(name, i, d) <= TopicOf(name, j, d') <==> i == j && d == d'
  {
    TopicPrefix(name, i, d, name, j, d');
  }

  /** Two of the names as they are written down elsewhere. */
  lemma NamesInFull()
    ensures TopicOf("zmqStack", 0, Ingress) == "zmqStack-0-ingress"
    ensures TopicOf("net-stack", 12, Egress) == "net-stack-12-egress"
  {
    hide Decimal;
    MoreDigits(0);
    MoreDigits(1);
    MoreDigits(12);
    assert "zmqStack" + "-" + "0" + "-ingress" == "zmqStack-0-ingress";
    assert "net-stack" + "-" + "12" + "-egress" == "net-stack-12-egress";
  }
}
