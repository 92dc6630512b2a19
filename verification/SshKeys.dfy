/** Key lines of `ssh-keys` metadata and of key request files, as text. */
module SshKeys {
  import opened Types

  // ---------- Python's string methods ----------

  predicate IsSpace(c: char) {
    || '\t' <= c <= '\r' || '\U{1C}' <= c <= ' ' || c == '\U{85}' || c == '\U{A0}' || c == '\U{1680}'
    || '\U{2000}' <= c <= '\U{200A}' || c == '\U{2028}' || c == '\U{2029}' || c == '\U{202F}' || c == '\U{205F}' || c == '\U{3000}'
  }

  /** Where `splitlines` splits. A carriage return before a line feed makes one more blank piece here, and blank pieces are dropped. */
  predicate IsBreak(c: char) {
    '\n' <= c <= '\r' || '\U{1C}' <= c <= '\U{1E}' || c == '\U{85}' || c == '\U{2028}' || c == '\U{2029}'
  }

  /** The characters themselves; every break is white space, and no break is printed. */
  lemma SpacesAndBreaks(c: char)
    ensures IsBreak(c) <==> c in "\n\U{0B}\U{0C}\r\U{1C}\U{1D}\U{1E}\U{85}\U{2028}\U{2029}"
    ensures IsSpace(c) <==>
              IsBreak(c) || c in
                "\t \U{1F}\U{A0}\U{1680}\U{2000}\U{2001}\U{2002}\U{2003}\U{2004}\U{2005}\U{2006}\U{2007}\U{2008}\U{2009}\U{200A}\U{202F}\U{205F}\U{3000}"
  {
  }

  function Lstrip(s: string): string {
    if s != "" && IsSpace(s[0]) then Lstrip(s[1..]) else s
  }

  function Rstrip(s: string): string {
    if s != "" && IsSpace(s[|s| - 1]) then Rstrip(s[..|s| - 1]) else s
  }

  function Strip(s: string): string {
    Rstrip(Lstrip(s))
  }

  predicate Trimmed(s: string) {
    s == "" || (!IsSpace(s[0]) && !IsSpace(s[|s| - 1]))
  }

  /** Length of the longest prefix without white space. */
  function WordEnd(s: string): (n: nat)
    ensures n <= |s| && (forall i :: 0 <= i < n ==> !IsSpace(s[i])) && (n < |s| ==> IsSpace(s[n]))
  {
    if s == "" || IsSpace(s[0]) then 0 else 1 + WordEnd(s[1..])
  }

  /** `split()` */
  function Words(s: string): seq<string>
    decreases |s|
  {
    if s == "" then []
    else if IsSpace(s[0]) then Words(s[1..])
    else [s[..WordEnd(s)]] + Words(s[WordEnd(s)..])
  }

  predicate Word(s: string) {
    s != "" && forall i :: 0 <= i < |s| ==> !IsSpace(s[i])
  }

  /** Position of the first colon, or the length. */
  function ColonAt(s: string): (n: nat)
    ensures n <= |s| && (forall i :: 0 <= i < n ==> s[i] != ':') && (n < |s| ==> s[n] == ':')
  {
    if s == "" || s[0] == ':' then 0 else 1 + ColonAt(s[1..])
  }

  function BreakAt(s: string): (n: nat)
    ensures n <= |s| && (forall i :: 0 <= i < n ==> !IsBreak(s[i])) && (n < |s| ==> IsBreak(s[n]))
  {
    if s == "" || IsBreak(s[0]) then 0 else 1 + BreakAt(s[1..])
  }

  /** `[line.strip() for line in text.splitlines() if line.strip()]` */
  function NodeLines(s: string): seq<string>
    decreases |s|
  {
    if s == "" then []
    else
      var n := BreakAt(s);
      var line := Strip(s[..n]);
      (if line != "" then [line] else []) + if n < |s| then NodeLines(s[n + 1..]) else []
  }

  /** `"\n".join(lines)` */
  function Join(lines: seq<string>): string {
    if lines == [] then ""
    else if |lines| == 1 then lines[0]
    else lines[0] + "\n" + Join(lines[1..])
  }

  // ---------- interactive.py ----------

  /** `ssh_key_identity`: user and key blob of a metadata line. */
  function KeyIdentity(line: string): Option<(string, string)> {
    var l := Strip(line);
    var c := ColonAt(l);
    if c == |l| then None
    else
      var user, parts := Strip(l[..c]), Words(Strip(l[c + 1..]));
      if |parts| < 2 || user == "" then None else Some((user, parts[1]))
  }

  predicate UserStart(c: char) {
    'a' <= c <= 'z' || c == '_'
  }

  predicate UserChar(c: char) {
    UserStart(c) || '0' <= c <= '9' || c == '.' || c == '-'
  }

  predicate PlainUser(u: string) {
    0 < |u| <= 32 && UserStart(u[0]) && forall i :: 0 <= i < |u| ==> UserChar(u[i])
  }

  /** `_SSH_USER_RE.match`: the final `$` also matches before a trailing line feed. */
  predicate UserMatches(u: string) {
    PlainUser(u) || (u != "" && u[|u| - 1] == '\n' && PlainUser(u[..|u| - 1]))
  }

  datatype KeyError = BadUser | NotOneLine | WrongUser | BadFormat | BadBlob

  /** The lines of a key file that are not comments. */
  function Payload(lines: seq<string>): seq<string> {
    if lines == [] then []
    else (if lines[0] != "" && lines[0][0] == '#' then [] else [lines[0]]) + Payload(lines[1..])
  }

  predicate KnownType(kind: string) {
    "ssh-" <= kind || "ecdsa-" <= kind
  }

  function Entry(user: string, kind: string, blob: string): string {
    user + ":" + kind + " " + blob + " " + user
  }

  /** `normalized_key_entry`; `valid` is the strict base64 test. */
  function NormalizedKeyEntry(valid: string -> bool, user: string, text: string): Result<string, KeyError> {
    if !UserMatches(user) then Err(BadUser)
    else
      var lines := Payload(NodeLines(text));
      if |lines| != 1 then Err(NotOneLine)
      else
        var line := lines[0];
        var c := ColonAt(line);
        var tagged := Words(line) != [] && ColonAt(Words(line)[0]) < |Words(line)[0]|;
        if tagged && c < |line| && Strip(line[..c]) != user then Err(WrongUser)
        else
          var parts := Words(Strip(if tagged && c < |line| then line[c + 1..] else line));
          if |parts| < 2 || !KnownType(parts[0]) then Err(BadFormat)
          else if !valid(parts[1]) then Err(BadBlob)
          else Ok(Entry(user, parts[0], parts[1]))
  }

  // ---------- Facts about stripping and splitting ----------

  lemma {:induction false} LstripFacts(s: string)
    ensures |Lstrip(s)| <= |s| && Lstrip(s) == s[|s| - |Lstrip(s)|..]
    ensures Lstrip(s) != "" ==> !IsSpace(Lstrip(s)[0])
  {
    if s != "" && IsSpace(s[0]) { LstripFacts(s[1..]); }
  }

  lemma {:induction false} RstripFacts(s: string)
    ensures |Rstrip(s)| <= |s| && Rstrip(s) == s[..|Rstrip(s)|]
    ensures Rstrip(s) != "" ==> !IsSpace(Rstrip(s)[|Rstrip(s)| - 1])
  {
    if s != "" && IsSpace(s[|s| - 1]) { RstripFacts(s[..|s| - 1]); }
  }

  /** Stripping leaves a piece of the text, trimmed; trimmed text it leaves alone. */
  lemma StripFacts(s: string)
    ensures Trimmed(Strip(s)) && (Trimmed(s) ==> Strip(s) == s)
    ensures forall i :: 0 <= i < |Strip(s)| ==> Strip(s)[i] in s
  {
    LstripFacts(s);
    RstripFacts(Lstrip(s));
  }

  lemma WordAlone(w: string)
    requires Word(w)
    ensures Words(w) == [w] && Trimmed(w) && WordEnd(w) == |w|
  {
    assert w[..|w|] == w && w[|w|..] == "";
  }

  lemma WordFirst(w: string, rest: string)
    requires Word(w)
    ensures Words(w + " " + rest) == [w] + Words(rest)
  {
    var s := w + " " + rest;
    assert s[0] == w[0];
    assert forall i :: 0 <= i < |w| ==> s[i] == w[i];
    assert s[|w|] == ' ';
    assert WordEnd(s) == |w|;
    assert s[..|w|] == w && s[|w|..] == " " + rest;
    assert (" " + rest)[1..] == rest;
  }

  lemma {:induction false} WordsAreWords(s: string)
    ensures forall w <- Words(s) :: Word(w)
    decreases |s|
  {
    if s != "" {
      if IsSpace(s[0]) { WordsAreWords(s[1..]); } else { WordsAreWords(s[WordEnd(s)..]); }
    }
  }

  predicate Unbroken(s: string) {
    forall i :: 0 <= i < |s| ==> !IsBreak(s[i])
  }

  predicate CleanLine(l: string) {
    l != "" && Trimmed(l) && Unbroken(l)
  }

  lemma UnbrokenParts(a: string, b: string)
    requires Unbroken(a) && Unbroken(b)
    ensures Unbroken(a + b)
  {
    hide IsBreak;
  }

  lemma WordUnbroken(w: string)
    requires Word(w)
    ensures Unbroken(w) && Unbroken(" ") && Unbroken(":")
  {
  }

  /** The part of an entry after its user, and with the colon. */
  lemma TailUnbroken(kind: string, blob: string, user: string)
    requires Word(kind) && Word(blob) && Unbroken(user)
    ensures Unbroken(":" + kind + " " + blob + " " + user)
  {
    hide Unbroken;
    WordUnbroken(kind);
    WordUnbroken(blob);
    UnbrokenParts(":", kind);
    UnbrokenParts(":" + kind, " ");
    UnbrokenParts(":" + kind + " ", blob);
    UnbrokenParts(":" + kind + " " + blob, " ");
    UnbrokenParts(":" + kind + " " + blob + " ", user);
  }

  lemma {:induction false} NodeLinesClean(s: string)
    ensures forall l <- NodeLines(s) :: CleanLine(l)
    decreases |s|
  {
    hide IsSpace, IsBreak, Strip;
    if s != "" {
      var n := BreakAt(s);
      StripFacts(s[..n]);
      if n < |s| { NodeLinesClean(s[n + 1..]); }
    }
  }

  lemma BreakFirst(l: string, rest: string)
    requires CleanLine(l)
    ensures NodeLines(l + "\n" + rest) == [l] + NodeLines(rest) && NodeLines(l) == [l]
  {
    var s := l + "\n" + rest;
    assert forall i :: 0 <= i < |l| ==> s[i] == l[i];
    assert s[|l|] == '\n';
    assert BreakAt(s) == |l| && s[..|l|] == l && s[|l| + 1..] == rest;
    assert BreakAt(l) == |l| && l[..|l|] == l;
    StripFacts(l);
  }

  /** Reading back what was joined: `splitlines` undoes `join` on lines as they were read. */
  lemma {:induction false} SplitUndoesJoin(lines: seq<string>)
    requires forall l <- lines :: CleanLine(l)
    ensures NodeLines(Join(lines)) == lines
  {
    if lines != [] {
      BreakFirst(lines[0], Join(lines[1..]));
      SplitUndoesJoin(lines[1..]);
      assert lines == [lines[0]] + lines[1..];
    }
  }

  /** Appending one more text to clean lines appends its lines. */
  lemma {:induction false} SplitAfterAppend(lines: seq<string>, x: string)
    requires forall l <- lines :: CleanLine(l)
    ensures NodeLines(Join(lines + [x])) == lines + NodeLines(x)
  {
    hide NodeLines, CleanLine;
    if lines == [] {
      assert lines + [x] == [x];
    } else {
      assert (lines + [x])[1..] == lines[1..] + [x];
      BreakFirst(lines[0], Join(lines[1..] + [x]));
      SplitAfterAppend(lines[1..], x);
      assert lines == [lines[0]] + lines[1..];
    }
  }

  // ---------- What an accepted key is ----------

  lemma PlainIsWord(u: string)
    requires PlainUser(u)
    ensures Word(u) && Trimmed(u) && ColonAt(u) == |u| && Strip(u) == u && Unbroken(u)
  {
    StripFacts(u);
  }

  /** Reading an accepted entry back gives its user and its key blob, on one clean line. */
  lemma EntryIdentity(user: string, kind: string, blob: string)
    requires PlainUser(user) && Word(kind) && Word(blob)
    ensures KeyIdentity(Entry(user, kind, blob)) == Some((user, blob))
    ensures CleanLine(Entry(user, kind, blob))
  {
    hide IsSpace, IsBreak, Unbroken, Words, Lstrip, Rstrip, Word, Strip, PlainUser;
    var e := Entry(user, kind, blob);
    var rest := kind + " " + blob + " " + user;
    PlainIsWord(user);
    EntryClean(user, kind, blob);
    StripFacts(e);
    EntryTag(user, kind, blob);
    assert e[..|user|] == user && e[|user| + 1..] == rest;
    RestTrimmed(kind, blob, user);
    RestWords(kind, blob, user);
  }

  lemma EntryClean(user: string, kind: string, blob: string)
    requires PlainUser(user) && Word(kind) && Word(blob)
    ensures CleanLine(Entry(user, kind, blob))
  {
    hide IsSpace, IsBreak, Unbroken;
    var e := Entry(user, kind, blob);
    PlainIsWord(user);
    TailUnbroken(kind, blob, user);
    UnbrokenParts(user, ":" + kind + " " + blob + " " + user);
    assert e == user + (":" + kind + " " + blob + " " + user);
    assert e[0] == user[0] && e[|e| - 1] == user[|user| - 1];
  }

  lemma RestWords(kind: string, blob: string, user: string)
    requires Word(kind) && Word(blob) && Word(user)
    ensures Words(kind + " " + blob + " " + user) == [kind, blob, user]
  {
    assert kind + " " + blob + " " + user == kind + " " + (blob + " " + user);
    WordFirst(kind, blob + " " + user);
    WordFirst(blob, user);
    WordAlone(user);
  }

  /** Whatever is accepted is an entry for the user asked about, with one recognised type and one valid blob. */
  lemma AcceptedShape(valid: string -> bool, user: string, text: string)
    requires NormalizedKeyEntry(valid, user, text).Ok?
    ensures UserMatches(user)
    ensures exists kind, blob :: Word(kind) && Word(blob) && KnownType(kind) && valid(blob) && NormalizedKeyEntry(valid, user, text).value == Entry(user, kind, blob)
  {
    hide UserMatches, KnownType, NodeLines, Strip;
    var line := Payload(NodeLines(text))[0];
    var c := ColonAt(line);
    var tagged := Words(line) != [] && ColonAt(Words(line)[0]) < |Words(line)[0]|;
    var body := Strip(if tagged && c < |line| then line[c + 1..] else line);
    WordsAreWords(body);
    assert Word(Words(body)[0]) && Word(Words(body)[1]);
  }

  /** Normalising an accepted entry again changes nothing, exactly if the user does not end in a line feed; else it is refused. */
  lemma NormalizeTwiceIff(valid: string -> bool, user: string, text: string)
    requires NormalizedKeyEntry(valid, user, text).Ok?
    ensures var once := NormalizedKeyEntry(valid, user, text);
            NormalizedKeyEntry(valid, user, once.value) == once <==> user[|user| - 1] != '\n'
  {
    hide NormalizedKeyEntry;
    AcceptedShape(valid, user, text);
    var kind, blob :| Word(kind) && Word(blob) && KnownType(kind) && valid(blob) && NormalizedKeyEntry(valid, user, text).value == Entry(user, kind, blob);
    if PlainUser(user) {
      assert UserChar(user[|user| - 1]);
      EntryAccepted(valid, user, kind, blob);
    } else {
      assert user == user[..|user| - 1] + "\n";
      EntryRefused(valid, user[..|user| - 1], kind, blob);
    }
  }

  lemma EntryRefused(valid: string -> bool, base: string, kind: string, blob: string)
    requires PlainUser(base) && Word(kind) && Word(blob)
    ensures NormalizedKeyEntry(valid, base + "\n", Entry(base + "\n", kind, blob)) == Err(NotOneLine)
  {
    hide NodeLines, Words, WordEnd, Lstrip, Rstrip, IsSpace, IsBreak, Entry;
    SplitEntry(base, kind, blob);
    var tail := ":" + kind + " " + blob + " " + base;
    assert (base + "\n")[..|base|] == base;
    assert base[0] != '#' && tail[0] == ':';
    PayloadOfTwo(base, tail);
  }

  lemma PayloadOfTwo(a: string, b: string)
    requires a != "" && a[0] != '#' && b != "" && b[0] != '#'
    ensures Payload([a, b]) == [a, b]
  {
    var s := [a, b];
    assert s[1..] == [b];
    assert Payload([b]) == [b] + Payload([]) by { assert [b][1..] == []; }
  }

  lemma EntryAccepted(valid: string -> bool, user: string, kind: string, blob: string)
    requires PlainUser(user) && Word(kind) && Word(blob) && KnownType(kind) && valid(blob)
    ensures NormalizedKeyEntry(valid, user, Entry(user, kind, blob)) == Ok(Entry(user, kind, blob))
  {
    hide NodeLines, Words, WordEnd, Lstrip, Rstrip, IsSpace, IsBreak;
    var e := Entry(user, kind, blob);
    var rest := kind + " " + blob + " " + user;
    EntryIdentity(user, kind, blob);
    BreakFirst(e, "");
    assert Payload([e]) == [e] by { assert e[0] == user[0]; }
    PlainIsWord(user);
    EntryTag(user, kind, blob);
    assert e[..|user|] == user && e[|user| + 1..] == rest;
    RestTrimmed(kind, blob, user);
    RestWords(kind, blob, user);
  }

  lemma RestTrimmed(kind: string, blob: string, user: string)
    requires Word(kind) && Word(blob) && Word(user)
    ensures Strip(kind + " " + blob + " " + user) == kind + " " + blob + " " + user
  {
    var rest := kind + " " + blob + " " + user;
    assert rest[0] == kind[0] && rest[|rest| - 1] == user[|user| - 1];
    StripFacts(rest);
  }

  /** The first colon of an entry ends its user, within its first word. */
  lemma EntryTag(user: string, kind: string, blob: string)
    requires PlainUser(user) && Word(kind) && Word(blob)
    ensures var e := Entry(user, kind, blob);
            && ColonAt(e) == |user| && |user| < |e|
            && Words(e) != [] && ColonAt(Words(e)[0]) < |Words(e)[0]|
  {
    var e, tag := Entry(user, kind, blob), user + ":" + kind;
    PlainIsWord(user);
    assert forall i :: 0 <= i < |user| ==> e[i] == user[i] == tag[i];
    assert e[|user|] == ':' == tag[|user|];
    assert Word(tag);
    assert e == tag + " " + (blob + " " + user);
    WordFirst(tag, blob + " " + user);
  }

  /**
   The user pattern lets a trailing line feed through, and then the accepted entry is two lines, neither
   of which has an identity. So an accepted entry can be found again on a node exactly if the user does
   not end in a line feed.
   */
  lemma FoundAgainIff(valid: string -> bool, user: string, text: string)
    requires NormalizedKeyEntry(valid, user, text).Ok?
    ensures var e := NormalizedKeyEntry(valid, user, text).value;
            (exists l <- NodeLines(e) :: KeyIdentity(l).Some?) <==> user[|user| - 1] != '\n'
  {
    hide NormalizedKeyEntry;
    AcceptedShape(valid, user, text);
    var kind, blob :| Word(kind) && Word(blob) && KnownType(kind) && valid(blob) && NormalizedKeyEntry(valid, user, text).value == Entry(user, kind, blob);
    if PlainUser(user) {
      assert UserChar(user[|user| - 1]);
      EntryIdentity(user, kind, blob);
      BreakFirst(Entry(user, kind, blob), "");
      assert Entry(user, kind, blob) in NodeLines(Entry(user, kind, blob));
    } else {
      SplitUnfound(user[..|user| - 1], kind, blob);
      assert user == user[..|user| - 1] + "\n";
    }
  }

  lemma NoSpecial()
    ensures !IsSpace(':') && NodeLines("") == []
  {
  }

  lemma SplitUnfound(base: string, kind: string, blob: string)
    requires PlainUser(base) && Word(kind) && Word(blob)
    ensures forall l <- NodeLines(Entry(base + "\n", kind, blob)) :: KeyIdentity(l).None?
  {
    hide NodeLines, KeyIdentity, Entry;
    SplitEntry(base, kind, blob);
  }

  lemma SplitEntry(base: string, kind: string, blob: string)
    requires PlainUser(base) && Word(kind) && Word(blob)
    ensures NodeLines(Entry(base + "\n", kind, blob)) == [base, ":" + kind + " " + blob + " " + base]
    ensures forall l <- NodeLines(Entry(base + "\n", kind, blob)) :: KeyIdentity(l).None?
  {
    hide Words, WordEnd, IsSpace, IsBreak, Unbroken, Lstrip, Rstrip, NodeLines;
    var e := Entry(base + "\n", kind, blob);
    var tail := ":" + kind + " " + blob + " " + base;
    PlainIsWord(base);
    TailUnbroken(kind, blob, base);
    assert e == base + "\n" + (tail + "\n");
    BreakFirst(base, tail + "\n");
    assert tail[0] == ':' && tail[|tail| - 1] == base[|base| - 1];
    NoSpecial();
    assert tail + "\n" == tail + "\n" + "";
    BreakFirst(tail, "");
    StripFacts(tail);
    assert ColonAt(tail) == 0 && tail[..0] == "";
    StripFacts("");
  }
}
