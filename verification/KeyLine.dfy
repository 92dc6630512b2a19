/** When a line of `ssh-keys` metadata is a key of a user, told by the characters of the line. */
module KeyLines {
  import opened Types
  import opened SshKeys

  predicate Spaces(s: string) {
    forall i :: 0 <= i < |s| ==> IsSpace(s[i])
  }

  /** `m` with white space around it. */
  ghost predicate Padded(s: string, m: string) {
    exists i :: 0 <= i && i + |m| <= |s| && Spaces(s[..i]) && s[i..i + |m|] == m && Spaces(s[i + |m|..])
  }

  ghost predicate Cut(s: string, lead: string, first: string, gap: string, second: string, rest: string) {
    && s == lead + (first + (gap + (second + rest)))
    && Spaces(lead) && Word(first) && Spaces(gap) && gap != "" && Word(second) && (rest == "" || IsSpace(rest[0]))
  }

  /** At least two words, of which these are the first. */
  ghost predicate FirstTwo(s: string, first: string, second: string) {
    exists lead, gap, rest :: Cut(s, lead, first, gap, second, rest)
  }

  ghost predicate SecondWord(s: string, second: string) {
    exists first :: FirstTwo(s, first, second)
  }

  ghost predicate TwoWords(s: string) {
    exists second :: SecondWord(s, second)
  }

  /** `user:kind blob` with any comment or none, and white space around each part. */
  ghost predicate KeyLine(line: string, user: string, blob: string) {
    && user != "" && Trimmed(user) && ':' !in user
    && exists c :: 0 <= c < |line| && line[c] == ':' && Padded(line[..c], user) && SecondWord(line[c + 1..], blob)
  }

  // ---------- Stripping ----------

  lemma {:induction false} LstripPast(a: string, s: string)
    requires Spaces(a)
    ensures Lstrip(a + s) == Lstrip(s)
  {
    if a == "" {
      assert a + s == s;
    } else {
      assert (a + s)[1..] == a[1..] + s;
      LstripPast(a[1..], s);
    }
  }

  lemma {:induction false} RstripPast(s: string, b: string)
    requires Spaces(b)
    ensures Rstrip(s + b) == Rstrip(s)
  {
    if b == "" {
      assert s + b == s;
    } else {
      assert (s + b)[..|s + b| - 1] == s + b[..|b| - 1];
      RstripPast(s, b[..|b| - 1]);
    }
  }

  lemma {:induction false} LstripSpaces(s: string)
    ensures |Lstrip(s)| <= |s| && Spaces(s[..|s| - |Lstrip(s)|]) && s[|s| - |Lstrip(s)|..] == Lstrip(s)
  {
    if s != "" && IsSpace(s[0]) { LstripSpaces(s[1..]); }
  }

  lemma {:induction false} RstripSpaces(s: string)
    ensures |Rstrip(s)| <= |s| && Spaces(s[|Rstrip(s)|..]) && s[..|Rstrip(s)|] == Rstrip(s)
  {
    if s != "" && IsSpace(s[|s| - 1]) { RstripSpaces(s[..|s| - 1]); }
  }

  lemma StripPads(s: string)
    ensures Padded(s, Strip(s)) && Trimmed(Strip(s))
  {
    hide IsSpace, Lstrip, Rstrip, Spaces;
    var l := Lstrip(s);
    LstripSpaces(s);
    RstripSpaces(l);
    StripFacts(s);
    var i, m := |s| - |l|, Rstrip(l);
    assert s[i..i + |m|] == l[..|m|] && s[i + |m|..] == l[|m|..];
  }

  lemma PaddedStrips(s: string, m: string)
    requires Trimmed(m) && Padded(s, m)
    ensures Strip(s) == m
  {
    hide IsSpace, Lstrip, Rstrip, Spaces;
    var i :| 0 <= i && i + |m| <= |s| && Spaces(s[..i]) && s[i..i + |m|] == m && Spaces(s[i + |m|..]);
    var a, b := s[..i], s[i + |m|..];
    assert s == a + (m + b);
    LstripPast(a, m + b);
    StrippedEnd(m, b);
  }

  lemma StrippedEnd(m: string, b: string)
    requires Trimmed(m) && Spaces(b)
    ensures Rstrip(Lstrip(m + b)) == m
  {
    if m == "" {
      assert m + b == b + "";
      LstripPast(b, "");
    } else {
      assert Lstrip(m + b) == m + b;
      RstripPast(m, b);
    }
  }

  /** What stripping leaves is the one trimmed text with nothing but white space around it. */
  lemma StripIff(s: string, m: string)
    ensures Strip(s) == m <==> Trimmed(m) && Padded(s, m)
  {
    hide Strip, Padded, Trimmed;
    StripPads(s);
    if Trimmed(m) && Padded(s, m) { PaddedStrips(s, m); }
  }

  // ---------- Words ----------

  lemma {:induction false} WordsPast(a: string, s: string)
    requires Spaces(a)
    ensures Words(a + s) == Words(s)
  {
    if a == "" {
      assert a + s == s;
    } else {
      assert (a + s)[1..] == a[1..] + s;
      WordsPast(a[1..], s);
    }
  }

  lemma NoWords(b: string)
    requires Spaces(b)
    ensures Words(b) == []
  {
    assert b + "" == b;
    WordsPast(b, "");
  }

  lemma WordsHead(w: string, r: string)
    requires Word(w) && (r == "" || IsSpace(r[0]))
    ensures Words(w + r) == [w] + Words(r)
  {
    var s := w + r;
    assert WordEnd(s) == |w| by {
      assert forall i :: 0 <= i < |w| ==> s[i] == w[i];
      if r != "" { assert s[|w|] == r[0]; }
    }
    assert s[..|w|] == w && s[|w|..] == r;
  }

  lemma WordStart(s: string)
    requires s != "" && !IsSpace(s[0])
    ensures WordEnd(s) > 0
  {
  }

  /** The first word, and what is before and after it. */
  lemma {:induction false} FirstWord(s: string) returns (lead: string, rest: string)
    requires Words(s) != []
    ensures Spaces(lead) && s == lead + (Words(s)[0] + rest) && Word(Words(s)[0])
    ensures (rest == "" || IsSpace(rest[0])) && Words(rest) == Words(s)[1..]
    decreases |s|
  {
    hide IsSpace, WordEnd;
    if IsSpace(s[0]) {
      ghost var before;
      before, rest := FirstWord(s[1..]);
      lead := [s[0]] + before;
      assert s == lead + (Words(s)[0] + rest) by {
        assert s == [s[0]] + s[1..];
        assert Words(s) == Words(s[1..]);
      }
    } else {
      var n := WordEnd(s);
      lead, rest := "", s[n..];
      assert Words(s) == [s[..n]] + Words(rest);
      assert s == s[..n] + rest && n > 0 by { WordStart(s); }
      assert forall i :: 0 <= i < n ==> s[..n][i] == s[i];
    }
  }

  /** The words of `split`, told by the text around them. */
  lemma FirstTwoIff(s: string, first: string, second: string)
    ensures |Words(s)| >= 2 && Words(s)[0] == first && Words(s)[1] == second <==> FirstTwo(s, first, second)
  {
    hide IsSpace, Words, Spaces;
    if lead, gap, rest :| Cut(s, lead, first, gap, second, rest) {
      CutWords(s, lead, first, gap, second, rest);
    }
    if |Words(s)| >= 2 && Words(s)[0] == first && Words(s)[1] == second {
      var lead, tail := FirstWord(s);
      var gap, rest := FirstWord(tail);
      assert Cut(s, lead, first, gap, second, rest);
    }
  }

  lemma SecondIff(s: string, second: string)
    ensures |Words(s)| >= 2 && Words(s)[1] == second <==> SecondWord(s, second)
  {
    hide Words, FirstTwo;
    if first :| FirstTwo(s, first, second) { FirstTwoIff(s, first, second); }
    if |Words(s)| >= 2 { FirstTwoIff(s, Words(s)[0], second); }
  }

  lemma CutWords(s: string, lead: string, first: string, gap: string, second: string, rest: string)
    requires Cut(s, lead, first, gap, second, rest)
    ensures Words(s) == [first, second] + Words(rest)
  {
    hide IsSpace, Words, Word;
    WordsPast(lead, first + (gap + (second + rest)));
    assert (gap + (second + rest))[0] == gap[0];
    WordsHead(first, gap + (second + rest));
    WordsPast(gap, second + rest);
    WordsHead(second, rest);
  }

  lemma {:induction false} WordsBefore(s: string, b: string)
    requires Spaces(b)
    ensures Words(s + b) == Words(s)
    decreases |s|
  {
    hide IsSpace, WordEnd, Spaces;
    if s == "" {
      assert s + b == b;
      NoWords(b);
    } else if IsSpace(s[0]) {
      assert (s + b)[1..] == s[1..] + b && (s + b)[0] == s[0];
      WordsBefore(s[1..], b);
    } else {
      WordStart(s);
      var n := WordEnd(s);
      var w, r := s[..n], s[n..];
      assert s + b == w + (r + b) && s == w + r;
      assert Word(w) && (r == "" || IsSpace(r[0]));
      StartsBlank(r, b);
      WordsHead(w, r);
      WordsHead(w, r + b);
      WordsBefore(r, b);
    }
  }

  lemma StartsBlank(r: string, b: string)
    requires Spaces(b) && (r == "" || IsSpace(r[0]))
    ensures r + b == "" || IsSpace((r + b)[0])
  {
  }

  /** White space around a text is no word of it. */
  lemma WordsStripped(s: string)
    ensures Words(Strip(s)) == Words(s)
  {
    hide IsSpace, Words, Strip, Spaces;
    StripPads(s);
    var m := Strip(s);
    var i :| 0 <= i && i + |m| <= |s| && Spaces(s[..i]) && s[i..i + |m|] == m && Spaces(s[i + |m|..]);
    assert s == s[..i] + (m + s[i + |m|..]);
    WordsPast(s[..i], m + s[i + |m|..]);
    WordsBefore(m, s[i + |m|..]);
  }

  // ---------- Identities ----------

  /** `ssh_key_identity` without stripping the whole line first. */
  ghost function Direct(line: string): Option<(string, string)> {
    var c := ColonAt(line);
    if c == |line| then None
    else if |Words(line[c + 1..])| < 2 || Strip(line[..c]) == "" then None
    else Some((Strip(line[..c]), Words(line[c + 1..])[1]))
  }

  lemma ColonAround(a: string, l: string, b: string)
    requires Spaces(a) && Spaces(b)
    ensures ColonAt(l) < |l| ==> ColonAt(a + l + b) == |a| + ColonAt(l)
    ensures ColonAt(l) == |l| ==> ColonAt(a + l + b) == |a + l + b|
  {
    hide ColonAt;
    var s := a + l + b;
    NoSpecial();
    assert forall i :: 0 <= i < |a| ==> s[i] == a[i];
    assert forall i :: 0 <= i < |l| ==> s[|a| + i] == l[i];
    assert forall i :: 0 <= i < |b| ==> s[|a| + |l| + i] == b[i];
    var c := ColonAt(s);
    if c < |s| {
      if |a| <= c < |a| + |l| { assert s[c] == l[c - |a|]; }
    }
    if ColonAt(l) < |l| { assert s[|a| + ColonAt(l)] == ':'; }
  }

  lemma SlicesAround(a: string, l: string, b: string, c: nat)
    requires c < |l|
    ensures var line := a + l + b; line[..|a| + c] == a + l[..c] && line[|a| + c + 1..] == l[c + 1..] + b
  {
    var line := a + l + b;
    assert line[..|a| + c] == a + l[..c];
    assert line[|a| + c + 1..] == l[c + 1..] + b;
  }

  /** White space around a line changes none of its parts. */
  lemma PartsAround(a: string, l: string, b: string)
    requires Spaces(a) && Spaces(b) && ColonAt(l) < |l|
    ensures var c, line := ColonAt(l), a + l + b;
            && ColonAt(line) == |a| + c
            && Strip(line[..|a| + c]) == Strip(l[..c]) && Words(line[|a| + c + 1..]) == Words(Strip(l[c + 1..]))
  {
    hide IsSpace, Words, Strip, Spaces, ColonAt;
    ColonAround(a, l, b);
    var c := ColonAt(l);
    SlicesAround(a, l, b, c);
    StripPast(a, l[..c]);
    WordsBefore(l[c + 1..], b);
    WordsStripped(l[c + 1..]);
  }

  lemma StripCut(line: string) returns (a: string, b: string)
    ensures Spaces(a) && Spaces(b) && line == a + Strip(line) + b
  {
    hide IsSpace, Strip, Spaces;
    StripPads(line);
    var l := Strip(line);
    var i :| 0 <= i && i + |l| <= |line| && Spaces(line[..i]) && line[i..i + |l|] == l && Spaces(line[i + |l|..]);
    a, b := line[..i], line[i + |l|..];
  }

  lemma IdentityDirect(line: string)
    ensures KeyIdentity(line) == Direct(line)
  {
    hide IsSpace, Words, Strip, Spaces, ColonAt;
    var l := Strip(line);
    var a, b := StripCut(line);
    ColonAround(a, l, b);
    if ColonAt(l) < |l| { PartsAround(a, l, b); }
  }

  lemma StripPast(a: string, s: string)
    requires Spaces(a)
    ensures Strip(a + s) == Strip(s)
  {
    LstripPast(a, s);
  }

  lemma NoColonPadded(s: string, m: string)
    requires Padded(s, m) && ':' !in m
    ensures ':' !in s
  {
    NoSpecial();
    hide IsSpace;
    var k :| 0 <= k && k + |m| <= |s| && Spaces(s[..k]) && s[k..k + |m|] == m && Spaces(s[k + |m|..]);
    forall i | 0 <= i < |s|
      ensures s[i] != ':'
    {
      if i < k {
        assert s[i] == s[..k][i];
      } else if i < k + |m| {
        assert s[i] == m[i - k];
      } else {
        assert s[i] == s[k + |m|..][i - k - |m|];
      }
    }
  }

  lemma TheColon(line: string, c: nat)
    requires c < |line| && line[c] == ':' && ':' !in line[..c]
    ensures ColonAt(line) == c
  {
    assert forall i :: 0 <= i < c ==> line[i] == line[..c][i];
  }

  /** A line is a key of a user exactly if it reads `user:kind blob`, with any comment or none. */
  lemma IdentityIff(line: string, user: string, blob: string)
    ensures KeyIdentity(line) == Some((user, blob)) <==> KeyLine(line, user, blob)
  {
    hide IsSpace, Words, Strip, Padded, SecondWord, KeyIdentity, Trimmed, ColonAt;
    IdentityDirect(line);
    var n := ColonAt(line);
    if n < |line| {
      StripIff(line[..n], user);
      SecondIff(line[n + 1..], blob);
      StripFacts(line[..n]);
    }
    if KeyLine(line, user, blob) {
      var c :| 0 <= c < |line| && line[c] == ':' && Padded(line[..c], user) && SecondWord(line[c + 1..], blob);
      NoColonPadded(line[..c], user);
      TheColon(line, c);
    }
  }

  /** A line is nobody's key exactly if it has no colon, only white space before its first one, or fewer than two words after it. */
  lemma NoIdentityIff(line: string)
    ensures KeyIdentity(line).None? <==>
              || ':' !in line
              || (exists c :: 0 <= c < |line| && line[c] == ':' && ':' !in line[..c] && (Spaces(line[..c]) || !TwoWords(line[c + 1..])))
  {
    hide IsSpace, Words, Strip, SecondWord, KeyIdentity, Trimmed, ColonAt, Spaces;
    IdentityDirect(line);
    var n := ColonAt(line);
    if n == |line| {
      assert ':' !in line;
    } else {
      var before, after := line[..n], line[n + 1..];
      assert line[n] == ':' && ':' !in before;
      BlankIff(before);
      if |Words(after)| >= 2 { SecondIff(after, Words(after)[1]); }
      forall blob | SecondWord(after, blob)
        ensures |Words(after)| >= 2
      {
        SecondIff(after, blob);
      }
      forall c | 0 <= c < |line| && line[c] == ':' && ':' !in line[..c]
        ensures c == n
      {
        TheColon(line, c);
      }
    }
  }

  lemma BlankIff(s: string)
    ensures Strip(s) == "" <==> Spaces(s)
  {
    hide IsSpace, Strip;
    StripIff(s, "");
    if Spaces(s) {
      assert s[..0] == "" && s[0..0 + |""|] == "" && s[0 + |""|..] == s;
    }
    if Padded(s, "") {
      var i :| 0 <= i && i + |""| <= |s| && Spaces(s[..i]) && s[i..i + |""|] == "" && Spaces(s[i + |""|..]);
      assert forall k :: 0 <= k < i ==> s[k] == s[..i][k];
      assert forall k :: i <= k < |s| ==> s[k] == s[i + |""|..][k - i];
    }
  }

  // ---------- Key files ----------

  /** What `_SSH_USER_RE` matches: a letter or underscore, then up to 31 letters, digits and `._-`, and one trailing line feed at most. */
  ghost predicate UserOk(u: string) {
    LoginName(u) || exists core :: u == core + "\n" && LoginName(core)
  }

  ghost predicate LoginName(u: string) {
    && 1 <= |u| <= 32 && ('a' <= u[0] <= 'z' || u[0] == '_')
    && forall i :: 0 <= i < |u| ==> 'a' <= u[i] <= 'z' || '0' <= u[i] <= '9' || u[i] in "_.-"
  }

  /** The one line of a key file that is neither blank nor a comment. */
  ghost predicate OnlyLine(lines: seq<string>, line: string) {
    exists k :: 0 <= k < |lines| && lines[k] == line && forall i :: 0 <= i < |lines| ==> ("#" <= lines[i] <==> i != k)
  }

  /** The first word of the line has a colon, here. */
  ghost predicate Tagged(line: string, c: int) {
    0 <= c < |line| && line[c] == ':' && forall i :: 0 <= i < c ==> line[i] != ':' && !IsSpace(line[i])
  }

  /** The line reads `kind blob`, alone or after `user:`. */
  ghost predicate KeyText(line: string, user: string, kind: string, blob: string) {
    if exists c :: Tagged(line, c) then exists c :: Tagged(line, c) && line[..c] == user && FirstTwo(line[c + 1..], kind, blob)
    else FirstTwo(line, kind, blob)
  }

  /** A key file that is accepted for the user, as a key of this kind with this blob. */
  ghost predicate KeyFile(valid: string -> bool, user: string, text: string, kind: string, blob: string) {
    && UserOk(user) && ("ssh-" <= kind || "ecdsa-" <= kind) && valid(blob)
    && exists line :: OnlyLine(NodeLines(text), line) && KeyText(line, user, kind, blob)
  }

  lemma UserOkIff(u: string)
    ensures UserMatches(u) <==> UserOk(u)
  {
    assert LoginName(u) <==> PlainUser(u);
    if u != "" && u[|u| - 1] == '\n' {
      var core := u[..|u| - 1];
      assert u == core + "\n";
      assert LoginName(core) <==> PlainUser(core);
    }
    if core :| u == core + "\n" && LoginName(core) {
      assert u[..|u| - 1] == core;
    }
  }

  lemma {:induction false} PayloadNone(lines: seq<string>)
    ensures Payload(lines) == [] <==> forall i :: 0 <= i < |lines| ==> "#" <= lines[i]
  {
    if lines != [] {
      PayloadNone(lines[1..]);
      assert lines == [lines[0]] + lines[1..];
    }
  }

  /** The first line counts: it is the only one exactly if the others are comments. */
  lemma PayloadHead(lines: seq<string>, line: string)
    requires lines != [] && !("#" <= lines[0])
    ensures Payload(lines) == [line] <==> OnlyLine(lines, line)
  {
    hide Payload;
    var rest := lines[1..];
    PayloadNone(rest);
    var p := [lines[0]] + Payload(rest);
    assert Payload(lines) == p by { PayloadStep(lines); }
    if Payload(lines) == [line] {
      assert p[0] == line && |p| == 1;
      forall i | 0 <= i < |lines|
        ensures "#" <= lines[i] <==> i != 0
      {
        if i > 0 { assert lines[i] == rest[i - 1]; }
      }
    }
    if OnlyLine(lines, line) {
      forall i | 0 <= i < |rest|
        ensures "#" <= rest[i]
      {
        assert rest[i] == lines[i + 1];
      }
    }
  }

  lemma PayloadStep(lines: seq<string>)
    requires lines != []
    ensures Payload(lines) == (if "#" <= lines[0] then [] else [lines[0]]) + Payload(lines[1..])
  {
  }

  lemma {:induction false} PayloadOne(lines: seq<string>, line: string)
    ensures Payload(lines) == [line] <==> OnlyLine(lines, line)
  {
    hide Payload;
    if lines == [] {
      PayloadNone(lines);
    } else if !("#" <= lines[0]) {
      PayloadHead(lines, line);
    } else {
      var rest := lines[1..];
      PayloadStep(lines);
      PayloadOne(rest, line);
      assert forall i :: 1 <= i < |lines| ==> lines[i] == rest[i - 1];
      if k :| 0 <= k < |rest| && rest[k] == line && forall i :: 0 <= i < |rest| ==> ("#" <= rest[i] <==> i != k) {
        assert lines[k + 1] == line;
      }
      if k :| 0 <= k < |lines| && lines[k] == line && forall i :: 0 <= i < |lines| ==> ("#" <= lines[i] <==> i != k) {
        assert rest[k - 1] == line;
        assert forall i :: 0 <= i < |rest| ==> rest[i] == lines[i + 1];
      }
    }
  }

  /** The test for a tag, on a line as it was read. */
  lemma TagIff(line: string)
    requires CleanLine(line)
    ensures Words(line) != []
    ensures ColonAt(Words(line)[0]) < |Words(line)[0]| <==> Tagged(line, ColonAt(line))
    ensures Tagged(line, ColonAt(line)) ==> Strip(line[..ColonAt(line)]) == line[..ColonAt(line)]
  {
    hide IsSpace, ColonAt, WordEnd, Strip;
    var n, c := WordEnd(line), ColonAt(line);
    var w := line[..n];
    assert Words(line) == [w] + Words(line[n..]);
    assert forall i :: 0 <= i < n ==> w[i] == line[i];
    NoSpecial();
    if ColonAt(w) < n {
      assert line[ColonAt(w)] == ':';
    } else {
      assert forall i :: 0 <= i < n ==> line[i] == w[i] != ':';
    }
    if Tagged(line, c) {
      StripFacts(line[..c]);
    }
  }

  lemma OneTag(line: string)
    ensures forall c :: Tagged(line, c) ==> c == ColonAt(line)
  {
  }

  /** The part of a key line that holds the key. */
  ghost function KeyPart(line: string): string {
    if Tagged(line, ColonAt(line)) then line[ColonAt(line) + 1..] else line
  }

  lemma KeyTextIff(line: string, user: string, kind: string, blob: string)
    requires CleanLine(line)
    ensures KeyText(line, user, kind, blob) <==>
              && (Tagged(line, ColonAt(line)) ==> line[..ColonAt(line)] == user)
              && FirstTwo(KeyPart(line), kind, blob)
  {
    hide Tagged, FirstTwo, ColonAt, CleanLine;
    OneTag(line);
  }

  lemma FileLine(text: string)
    requires |Payload(NodeLines(text))| == 1
    ensures CleanLine(Payload(NodeLines(text))[0])
  {
    hide NodeLines, Payload, CleanLine;
    var line := Payload(NodeLines(text))[0];
    assert Payload(NodeLines(text)) == [line];
    PayloadOne(NodeLines(text), line);
    NodeLinesClean(text);
  }

  /** What is decided about the one line of a key file. */
  lemma Decided(valid: string -> bool, user: string, text: string, line: string)
    requires Payload(NodeLines(text)) == [line] && UserMatches(user)
    ensures CleanLine(line)
    ensures var parts := Words(KeyPart(line));
            NormalizedKeyEntry(valid, user, text) ==
              if Tagged(line, ColonAt(line)) && line[..ColonAt(line)] != user then Err(WrongUser)
              else if |parts| < 2 || !("ssh-" <= parts[0] || "ecdsa-" <= parts[0]) then Err(BadFormat)
              else if !valid(parts[1]) then Err(BadBlob)
              else Ok(user + ":" + parts[0] + " " + parts[1] + " " + user)
  {
    hide NodeLines, Payload, CleanLine, Words, Strip, ColonAt, UserMatches, Tagged;
    FileLine(text);
    TagIff(line);
    WordsStripped(KeyPart(line));
    TagInside(line);
  }

  lemma TagInside(line: string)
    ensures Tagged(line, ColonAt(line)) ==> ColonAt(line) < |line|
  {
  }

  lemma FileAccepted(valid: string -> bool, user: string, text: string, kind: string, blob: string)
    requires KeyFile(valid, user, text, kind, blob)
    ensures NormalizedKeyEntry(valid, user, text) == Ok(user + ":" + kind + " " + blob + " " + user)
  {
    hide NodeLines, Words, UserMatches, UserOk, OnlyLine, KeyText, FirstTwo, Tagged, KeyPart, NormalizedKeyEntry, CleanLine, ColonAt;
    var line :| OnlyLine(NodeLines(text), line) && KeyText(line, user, kind, blob);
    UserOkIff(user);
    PayloadOne(NodeLines(text), line);
    Decided(valid, user, text, line);
    KeyTextIff(line, user, kind, blob);
    FirstTwoIff(KeyPart(line), kind, blob);
  }

  lemma AcceptedFile(valid: string -> bool, user: string, text: string) returns (kind: string, blob: string)
    requires NormalizedKeyEntry(valid, user, text).Ok?
    ensures KeyFile(valid, user, text, kind, blob)
  {
    hide NodeLines, Words, UserMatches, UserOk, OnlyLine, KeyText, FirstTwo, Tagged, KeyPart, NormalizedKeyEntry, CleanLine, ColonAt;
    OneAccepted(valid, user, text);
    var line := Payload(NodeLines(text))[0];
    assert Payload(NodeLines(text)) == [line];
    UserOkIff(user);
    PayloadOne(NodeLines(text), line);
    Decided(valid, user, text, line);
    kind, blob := Words(KeyPart(line))[0], Words(KeyPart(line))[1];
    KeyTextIff(line, user, kind, blob);
    FirstTwoIff(KeyPart(line), kind, blob);
  }

  lemma KeyFileWords(valid: string -> bool, user: string, text: string, kind: string, blob: string)
    requires KeyFile(valid, user, text, kind, blob)
    ensures Word(kind) && Word(blob) && user != ""
  {
    hide NodeLines, OnlyLine, Tagged, IsSpace;
  }

  lemma OneAccepted(valid: string -> bool, user: string, text: string)
    requires NormalizedKeyEntry(valid, user, text).Ok?
    ensures UserMatches(user) && |Payload(NodeLines(text))| == 1
  {
    hide NodeLines, Words, UserMatches, Strip, Payload, ColonAt;
  }

  /** A key file is accepted exactly if it holds one key of a known kind with a valid blob, untagged or tagged with the user. */
  lemma AcceptedIff(valid: string -> bool, user: string, text: string)
    ensures NormalizedKeyEntry(valid, user, text).Ok? <==> exists kind, blob :: KeyFile(valid, user, text, kind, blob)
    ensures forall kind, blob :: KeyFile(valid, user, text, kind, blob) ==>
              NormalizedKeyEntry(valid, user, text) == Ok(user + ":" + kind + " " + blob + " " + user)
  {
    hide NormalizedKeyEntry, KeyFile;
    forall kind, blob | KeyFile(valid, user, text, kind, blob)
      ensures NormalizedKeyEntry(valid, user, text) == Ok(user + ":" + kind + " " + blob + " " + user)
    {
      FileAccepted(valid, user, text, kind, blob);
    }
    if NormalizedKeyEntry(valid, user, text).Ok? {
      var kind, blob := AcceptedFile(valid, user, text);
    }
  }
}
