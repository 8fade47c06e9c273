/**
 The validator, the splitter and the joiner of the bulk endpoint's guid list
 (handler/bulklrpstatus/bulklrpstatus.go).  The validator is the regular expression itself,
 with the usual meaning of its operators.
*/
module GuidPattern {

  // [a-zA-Z0-9_-]
  predicate IsGuidChar(c: char) {
    'a' <= c <= 'z' || 'A' <= c <= 'Z' || '0' <= c <= '9' || c == '_' || c == '-'
  }

  datatype Regex =
    | GuidChar
    | Comma
    | Cat(first: Regex, second: Regex)
    | Star(inner: Regex)

  function Plus(r: Regex): Regex {
    Cat(r, Star(r))
  }

  // The whole of s matches r.
  predicate Matches(r: Regex, s: string)
    decreases r, |s|
  {
    match r
    case GuidChar => |s| == 1 && IsGuidChar(s[0])
    case Comma => s == ","
    case Cat(a, b) => exists i :: 0 <= i <= |s| && Matches(a, s[..i]) && Matches(b, s[i..])
    case Star(a) => s == [] || exists i :: 0 < i <= |s| && Matches(a, s[..i]) && Matches(r, s[i..])
  }

  // ([a-zA-Z0-9_-]+,)*[a-zA-Z0-9_-]+ anchored at both ends
  const TOKEN := Plus(GuidChar)
  const PROCESS_GUID_PATTERN := Cat(Star(Cat(TOKEN, Comma)), TOKEN)

  predicate ValidToken(t: string) {
    t != [] && forall i :: 0 <= i < |t| ==> IsGuidChar(t[i])
  }

  // The position of the first comma, |s| if there is none.
  function FirstComma(s: string): (k: nat)
    ensures k <= |s| && (k < |s| ==> s[k] == ',') && forall i :: 0 <= i < k ==> s[i] != ','
  {
    if s == [] || s[0] == ',' then 0 else 1 + FirstComma(s[1..])
  }

  // strings.Split(s, ",")
  function Split(s: string): seq<string>
    decreases |s|
  {
    var k := FirstComma(s);
    if k == |s| then [s] else [s[..k]] + Split(s[k + 1..])
  }

  function Join(tokens: seq<string>): string {
    if |tokens| == 0 then []
    else if |tokens| == 1 then tokens[0]
    else tokens[0] + "," + Join(tokens[1..])
  }

  ghost predicate AllValid(tokens: seq<string>) {
    forall i :: 0 <= i < |tokens| ==> ValidToken(tokens[i])
  }

  ghost predicate NoComma(t: string) {
    forall i :: 0 <= i < |t| ==> t[i] != ','
  }

  // ---------- round trips

  lemma SplitHead(t: string, rest: string)
    requires NoComma(t)
    ensures Split(t + "," + rest) == [t] + Split(rest)
  {
    var s := t + "," + rest;
    assert s[|t|] == ',';
    assert FirstComma(s) == |t|;
    assert s[..|t|] == t && s[|t| + 1..] == rest;
  }

  lemma SplitWhole(t: string)
    requires NoComma(t)
    ensures Split(t) == [t]
  {
  }

  lemma JoinHead(t: string, rest: seq<string>)
    requires rest != []
    ensures Join([t] + rest) == t + "," + Join(rest)
  {
    assert ([t] + rest)[1..] == rest;
  }

  // Joining what Split gives is the string itself, for every string.
  lemma {:induction false} JoinSplit(s: string)
    ensures Split(s) != [] && Join(Split(s)) == s
    decreases |s|
  {
    var k := FirstComma(s);
    if k < |s| {
      var rest := s[k + 1..];
      JoinSplit(rest);
      JoinHead(s[..k], Split(rest));
      assert s == s[..k] + [s[k]] + rest;
    }
  }

  // Splitting the join of any non-empty list of comma-free tokens gives the list.
  lemma {:induction false} SplitJoin(tokens: seq<string>)
    requires tokens != [] && forall i :: 0 <= i < |tokens| ==> ',' !in tokens[i]
    ensures Split(Join(tokens)) == tokens
  {
    if |tokens| == 1 {
      SplitWhole(tokens[0]);
    } else {
      SplitJoin(tokens[1..]);
      SplitHead(tokens[0], Join(tokens[1..]));
    }
  }

  // ---------- the language of the pattern

  lemma {:induction false} StarGuidChar(s: string)
    ensures Matches(Star(GuidChar), s) <==> forall i :: 0 <= i < |s| ==> IsGuidChar(s[i])
    decreases |s|
  {
    if s == [] {
    } else {
      StarGuidChar(s[1..]);
      assert s == s[..1] + s[1..];
      assert Matches(GuidChar, s[..1]) <==> IsGuidChar(s[0]);
      if Matches(Star(GuidChar), s) {
        var i :| 0 < i <= |s| && Matches(GuidChar, s[..i]) && Matches(Star(GuidChar), s[i..]);
        assert i == 1;
        forall j | 0 <= j < |s|
          ensures IsGuidChar(s[j])
        {
          if j > 0 {
            assert s[j] == s[1..][j - 1];
          }
        }
      }
    }
  }

  lemma TokenMatches(s: string)
    ensures Matches(TOKEN, s) <==> ValidToken(s)
  {
    if Matches(TOKEN, s) {
      var i :| 0 <= i <= |s| && Matches(GuidChar, s[..i]) && Matches(Star(GuidChar), s[i..]);
      StarGuidChar(s[i..]);
      forall j | 0 <= j < |s|
        ensures IsGuidChar(s[j])
      {
        if j > 0 {
          assert s[j] == s[i..][j - 1];
        }
      }
    }
    if ValidToken(s) {
      StarGuidChar(s[1..]);
      assert Matches(GuidChar, s[..1]) && Matches(Star(GuidChar), s[1..]);
    }
  }

  lemma ItemMatches(s: string)
    ensures Matches(Cat(TOKEN, Comma), s) <==> s != [] && s[|s| - 1] == ',' && ValidToken(s[..|s| - 1])
  {
    if Matches(Cat(TOKEN, Comma), s) {
      var i :| 0 <= i <= |s| && Matches(TOKEN, s[..i]) && Matches(Comma, s[i..]);
      assert i == |s| - 1 && s[i..][0] == ',';
      TokenMatches(s[..i]);
    }
    if s != [] && s[|s| - 1] == ',' && ValidToken(s[..|s| - 1]) {
      TokenMatches(s[..|s| - 1]);
      assert s[|s| - 1..] == ",";
    }
  }

  // Tokens, each followed by a comma.
  function Items(tokens: seq<string>): string {
    if tokens == [] then [] else tokens[0] + "," + Items(tokens[1..])
  }

  lemma PutItemFirst(t: string, items: string)
    requires ValidToken(t) && Matches(Star(Cat(TOKEN, Comma)), items)
    ensures Matches(Star(Cat(TOKEN, Comma)), t + "," + items)
  {
    var longer, n := t + "," + items, |t| + 1;
    assert longer[..n] == t + "," && longer[..n][..|t|] == t;
    ItemMatches(longer[..n]);
    assert longer[n..] == items;
  }

  lemma {:induction false} ItemsMatch(tokens: seq<string>)
    requires AllValid(tokens)
    ensures Matches(Star(Cat(TOKEN, Comma)), Items(tokens))
  {
    if tokens == [] {
    } else {
      ItemsMatch(tokens[1..]);
      PutItemFirst(tokens[0], Items(tokens[1..]));
    }
  }

  // A match of the starred part is empty or an item before a shorter match.
  lemma FirstItem(items: string) returns (t: string, rest: string)
    requires items != [] && Matches(Star(Cat(TOKEN, Comma)), items)
    ensures ValidToken(t) && items == t + "," + rest && Matches(Star(Cat(TOKEN, Comma)), rest)
  {
    var i :| 0 < i <= |items| && Matches(Cat(TOKEN, Comma), items[..i]) &&
             Matches(Star(Cat(TOKEN, Comma)), items[i..]);
    ItemMatches(items[..i]);
    t, rest := items[..i - 1], items[i..];
    assert items[..i][..i - 1] == t;
    assert items[i - 1] == ',';
  }

  lemma {:induction false} MatchIsItems(s: string) returns (tokens: seq<string>)
    requires Matches(Star(Cat(TOKEN, Comma)), s)
    ensures AllValid(tokens) && s == Items(tokens)
    decreases |s|
  {
    if s == [] {
      tokens := [];
    } else {
      var t, rest := FirstItem(s);
      var later := MatchIsItems(rest);
      tokens := [t] + later;
      assert tokens[1..] == later;
    }
  }

  // The pattern matches the strings made of items and one more token, and no others.
  lemma MatchesItems(tokens: seq<string>, tail: string)
    requires AllValid(tokens) && ValidToken(tail)
    ensures Matches(PROCESS_GUID_PATTERN, Items(tokens) + tail)
  {
    var s, n := Items(tokens) + tail, |Items(tokens)|;
    ItemsMatch(tokens);
    TokenMatches(tail);
    assert s[..n] == Items(tokens) && s[n..] == tail;
  }

  lemma MatchHasItems(s: string) returns (tokens: seq<string>, tail: string)
    requires Matches(PROCESS_GUID_PATTERN, s)
    ensures AllValid(tokens) && ValidToken(tail) && s == Items(tokens) + tail
  {
    var i :| 0 <= i <= |s| && Matches(Star(Cat(TOKEN, Comma)), s[..i]) && Matches(TOKEN, s[i..]);
    tail := s[i..];
    tokens := MatchIsItems(s[..i]);
    TokenMatches(tail);
  }

  lemma {:induction false} JoinItems(tokens: seq<string>, tail: string)
    ensures Join(tokens + [tail]) == Items(tokens) + tail
  {
    if tokens == [] {
    } else {
      JoinItems(tokens[1..], tail);
      assert tokens + [tail] == [tokens[0]] + (tokens[1..] + [tail]);
      JoinHead(tokens[0], tokens[1..] + [tail]);
    }
  }

  lemma ValidHasNoComma(tokens: seq<string>)
    requires AllValid(tokens)
    ensures forall i :: 0 <= i < |tokens| ==> NoComma(tokens[i])
  {
    forall i | 0 <= i < |tokens|
      ensures NoComma(tokens[i])
    {
      assert ValidToken(tokens[i]);
    }
  }

  // Any non-empty list of valid tokens can be asked for: its join is accepted and splits back.
  lemma TokensRoundTrip(tokens: seq<string>)
    requires tokens != [] && AllValid(tokens)
    ensures Matches(PROCESS_GUID_PATTERN, Join(tokens)) && Split(Join(tokens)) == tokens
  {
    var most, tail := tokens[..|tokens| - 1], tokens[|tokens| - 1];
    assert tokens == most + [tail];
    JoinItems(most, tail);
    MatchesItems(most, tail);
    ValidHasNoComma(tokens);
    SplitJoin(tokens);
  }

  lemma LowerCase(c: char)
    ensures 'a' <= c <= 'z' <==> c in "abcdefghijklmnopqrstuvwxyz"
  {
  }

  lemma UpperCase(c: char)
    ensures 'A' <= c <= 'Z' <==> c in "ABCDEFGHIJKLMNOPQRSTUVWXYZ"
  {
  }

  lemma Digit(c: char)
    ensures '0' <= c <= '9' <==> c in "0123456789"
  {
  }

  // The characters of the class, all of them.
  lemma GuidChars(c: char)
    ensures IsGuidChar(c) <==>
            c in "abcdefghijklmnopqrstuvwxyz" + "ABCDEFGHIJKLMNOPQRSTUVWXYZ" + "0123456789" + "_-"
  {
    LowerCase(c);
    UpperCase(c);
    Digit(c);
  }

  lemma PatternIffValid(s: string)
    ensures Matches(PROCESS_GUID_PATTERN, s) <==> AllValid(Split(s))
  {
    if Matches(PROCESS_GUID_PATTERN, s) {
      var tokens, tail := MatchHasItems(s);
      JoinItems(tokens, tail);
      TokensRoundTrip(tokens + [tail]);
    }
    if AllValid(Split(s)) {
      JoinSplit(s);
      TokensRoundTrip(Split(s));
    }
  }

  lemma TokenChars(t: string)
    ensures ValidToken(t) <==>
            && t != []
            && forall c :: c in t ==>
                 c in "abcdefghijklmnopqrstuvwxyz" + "ABCDEFGHIJKLMNOPQRSTUVWXYZ" + "0123456789" + "_-"
  {
    forall i | 0 <= i < |t|
      ensures IsGuidChar(t[i]) <==>
              t[i] in "abcdefghijklmnopqrstuvwxyz" + "ABCDEFGHIJKLMNOPQRSTUVWXYZ" + "0123456789" + "_-"
    {
      GuidChars(t[i]);
    }
    if t != [] && !ValidToken(t) {
      var i :| 0 <= i < |t| && !IsGuidChar(t[i]);
      assert t[i] in t;
    }
  }

  // The validator accepts a string exactly when splitting it on commas gives only tokens that are
  // not empty and consist of letters, digits, underscores and hyphens.
  lemma PatternIffTokens(s: string)
    ensures Matches(PROCESS_GUID_PATTERN, s) <==>
            forall t :: t in Split(s) ==>
              && t != []
              && forall c :: c in t ==>
                   c in "abcdefghijklmnopqrstuvwxyz" + "ABCDEFGHIJKLMNOPQRSTUVWXYZ" + "0123456789" + "_-"
  {
    PatternIffValid(s);
    forall t | t in Split(s)
      ensures ValidToken(t) <==>
              && t != []
              && forall c :: c in t ==>
                   c in "abcdefghijklmnopqrstuvwxyz" + "ABCDEFGHIJKLMNOPQRSTUVWXYZ" + "0123456789" + "_-"
    {
      TokenChars(t);
    }
    assert AllValid(Split(s)) <==> forall t :: t in Split(s) ==> ValidToken(t);
  }
}
