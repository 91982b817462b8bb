/** The ocserv password file: reading users and deleting one by rewriting the file. */
module Ocpasswd {
  import opened Wrappers
  import Text

  // ------------------------------------------------ reading and writing lines

  function DropCr(line: string): string {
    if line != "" && line[|line| - 1] == '\r' then line[..|line| - 1] else line
  }

  function DropCrs(lines: seq<string>): (r: seq<string>)
    ensures |r| == |lines|
    ensures forall i | 0 <= i < |r| :: r[i] == DropCr(lines[i])
  {
    if lines == [] then [] else [DropCr(lines[0])] + DropCrs(lines[1..])
  }

  // The pieces between newlines; nothing after a final newline.
  function RawLines(text: string): seq<string> {
    var parts := Text.Split(text, Text.NL);
    if parts[|parts| - 1] == "" then parts[..|parts| - 1] else parts
  }

  // bufio.Scanner with its default line splitter.
  function ScanLines(text: string): seq<string> {
    DropCrs(RawLines(text))
  }

  function WriteLines(lines: seq<string>): string {
    if lines == [] then "" else lines[0] + [Text.NL] + WriteLines(lines[1..])
  }

  function LineUser(line: string): string {
    var t := Text.Trim(line);
    if t == "" || t[0] == '#' then ""
    else
      var f := Text.Split(t, ':');
      if |f| > 1 then f[0] else ""
  }

  function UsersOf(lines: seq<string>): set<string> {
    set ln | ln in lines && LineUser(ln) != "" :: LineUser(ln)
  }

  // ------------------------------------------------ deleting a user

  // The lines that do not belong to the user.
  function Others(lines: seq<string>, user: string): seq<string> {
    if lines == [] then []
    else (if LineUser(lines[0]) == user then [] else [lines[0]]) + Others(lines[1..], user)
  }

  // The file after DeleteUser; an absent file stays absent.
  function Deleted(file: Option<string>, user: string): Option<string> {
    match file
    case None => None
    case Some(text) =>
      var lines := ScanLines(text);
      if user !in UsersOf(lines) then file else Some(WriteLines(Others(lines, user)))
  }

  function FileUsers(file: Option<string>): set<string> {
    match file
    case None => {}
    case Some(text) => UsersOf(ScanLines(text))
  }

  lemma {:induction false} OthersSnoc(lines: seq<string>, last: string, user: string)
    ensures Others(lines + [last], user)
         == Others(lines, user) + (if LineUser(last) == user then [] else [last])
  {
    hide LineUser;
    if lines == [] {
      assert lines + [last] == [last];
    } else {
      assert (lines + [last])[1..] == lines[1..] + [last];
      OthersSnoc(lines[1..], last, user);
    }
  }

  lemma OthersNone(user: string)
    ensures Others([], user) == []
  {
  }

  /**
   * The filter of DeleteUser: `kept := lines[:0]` shares the array it ranges
   * over, so every kept line is moved forward into the slots already read.
   */
  method FilterInPlace(lines: array<string>, user: string) returns (kept: nat)
    modifies lines
    ensures kept <= lines.Length
    ensures lines[..kept] == Others(old(lines[..]), user)
  {
    hide LineUser, Others;
    kept := 0;
    ghost var was := lines[..];
    OthersNone(user);
    for i := 0 to lines.Length
      invariant kept <= i
      invariant lines[i..] == was[i..]
      invariant lines[..kept] == Others(was[..i], user)
    {
      var ln := lines[i];
      assert ln == lines[i..][0] == was[i];
      assert was[..i + 1] == was[..i] + [ln];
      OthersSnoc(was[..i], ln, user);
      if LineUser(ln) != user {
        lines[kept] := ln;
        kept := kept + 1;
      }
      assert lines[i + 1..] == was[i + 1..];
    }
    assert was[..lines.Length] == was;
  }

  class PasswordFile {
    var content: Option<string>

    constructor (content: Option<string>)
      ensures this.content == content
    {
      this.content := content;
    }

    method DeleteUser(user: string)
      modifies this
      ensures content == Deleted(old(content), user)
    {
      if content.None? {
        return;
      }
      var read := ScanLines(content.value);
      if user !in UsersOf(read) {
        return;
      }
      var lines := new string[|read|](i requires 0 <= i < |read| => read[i]);
      assert lines[..] == read;
      var kept := FilterInPlace(lines, user);
      content := Some(WriteLines(lines[..kept]));
    }
  }

  // ------------------------------------------------ what a deletion means

  lemma {:induction false} RawOfWrite(lines: seq<string>)
    requires forall ln | ln in lines :: Text.NL !in ln
    ensures Text.Split(WriteLines(lines), Text.NL) == lines + [""]
  {
    if lines != [] {
      RawOfWrite(lines[1..]);
      Text.SplitCons(lines[0], WriteLines(lines[1..]), Text.NL);
    }
  }

  /** Writing lines and scanning them again strips one more carriage return from each, and nothing else. */
  lemma Reread(lines: seq<string>)
    requires forall ln | ln in lines :: Text.NL !in ln
    ensures ScanLines(WriteLines(lines)) == DropCrs(lines)
  {
    RawOfWrite(lines);
    assert (lines + [""])[..|lines|] == lines;
  }

  predicate EndsInCr(line: string) {
    line != "" && line[|line| - 1] == '\r'
  }

  /** Exactly when the rewrite preserves the lines: no line still ends in a carriage return. */
  lemma RereadSameIff(lines: seq<string>)
    requires forall ln | ln in lines :: Text.NL !in ln
    ensures ScanLines(WriteLines(lines)) == lines <==> forall ln | ln in lines :: !EndsInCr(ln)
  {
    Reread(lines);
    if i :| 0 <= i < |lines| && EndsInCr(lines[i]) {
      assert DropCrs(lines)[i] != lines[i];
      assert lines[i] in lines;
    } else {
      assert DropCrs(lines) == lines;
      forall ln | ln in lines ensures !EndsInCr(ln) {
        var i :| 0 <= i < |lines| && lines[i] == ln;
      }
    }
  }

  lemma ScannedHasNoNewline(text: string)
    ensures forall ln | ln in ScanLines(text) :: Text.NL !in ln
  {
    var raw := RawLines(text);
    forall ln | ln in ScanLines(text) ensures Text.NL !in ln {
      var i :| 0 <= i < |raw| && ln == DropCr(raw[i]);
      assert raw[i] in Text.Split(text, Text.NL);
    }
  }

  lemma {:induction false} OthersMembers(lines: seq<string>, user: string)
    ensures forall ln :: ln in Others(lines, user) <==> ln in lines && LineUser(ln) != user
  {
    if lines != [] {
      OthersMembers(lines[1..], user);
      assert lines == [lines[0]] + lines[1..];
    }
  }

  lemma {:induction false} TrimLeftSnoc(s: string, c: char)
    requires Text.IsSpace(c)
    ensures Text.TrimLeft(s + [c]) == if Text.TrimLeft(s) == "" then "" else Text.TrimLeft(s) + [c]
  {
    if s == "" {
      assert s + [c] == [c];
    } else if Text.IsSpace(s[0]) {
      assert (s + [c])[1..] == s[1..] + [c];
      TrimLeftSnoc(s[1..], c);
    }
  }

  lemma TrimSnoc(s: string, c: char)
    requires Text.IsSpace(c)
    ensures Text.Trim(s + [c]) == Text.Trim(s)
  {
    TrimLeftSnoc(s, c);
    var t := Text.TrimLeft(s);
    assert (t + [c])[..|t|] == t;
  }

  lemma LineUserDropCr(line: string)
    ensures LineUser(DropCr(line)) == LineUser(line)
  {
    if EndsInCr(line) {
      TrimSnoc(DropCr(line), '\r');
      assert line == DropCr(line) + ['\r'];
    }
  }

  lemma UsersOfDropCrs(lines: seq<string>)
    ensures UsersOf(DropCrs(lines)) == UsersOf(lines)
  {
    forall u ensures u in UsersOf(DropCrs(lines)) <==> u in UsersOf(lines) {
      if ln :| ln in lines && LineUser(ln) == u && u != "" {
        var i :| 0 <= i < |lines| && lines[i] == ln;
        LineUserDropCr(ln);
        assert DropCrs(lines)[i] in DropCrs(lines);
      }
      if ln :| ln in DropCrs(lines) && LineUser(ln) == u && u != "" {
        var i :| 0 <= i < |lines| && DropCrs(lines)[i] == ln;
        LineUserDropCr(lines[i]);
        assert lines[i] in lines;
      }
    }
  }

  lemma UsersOfOthers(lines: seq<string>, user: string)
    ensures UsersOf(Others(lines, user)) == UsersOf(lines) - {user}
  {
    OthersMembers(lines, user);
    var rest := Others(lines, user);
    forall u ensures u in UsersOf(rest) <==> u in UsersOf(lines) && u != user {
      if ln :| ln in lines && LineUser(ln) == u && u != "" && u != user {
        assert ln in rest;
      }
    }
  }

  /** The set of users loses exactly the deleted one, whatever else the file holds. */
  lemma DeleteLosesExactlyOne(file: Option<string>, user: string)
    ensures FileUsers(Deleted(file, user)) == FileUsers(file) - {user}
  {
    hide UsersOf, Others, LineUser, ScanLines, WriteLines;
    if file.Some? && user in FileUsers(file) {
      var lines := ScanLines(file.value);
      ScannedHasNoNewline(file.value);
      OthersMembers(lines, user);
      Reread(Others(lines, user));
      UsersOfDropCrs(Others(lines, user));
      UsersOfOthers(lines, user);
    }
  }

  /** Deleting again changes nothing, not even a byte. */
  lemma DeleteTwice(file: Option<string>, user: string)
    ensures Deleted(Deleted(file, user), user) == Deleted(file, user)
  {
    DeleteLosesExactlyOne(file, user);
  }

  /**
   * Every other line survives in order, comments and malformed lines included:
   * the file reads back as exactly those lines, if and only if none of them
   * still ends in a carriage return after the scan.
   */
  lemma DeleteKeepsOtherLines(text: string, user: string)
    requires user in FileUsers(Some(text))
    ensures Deleted(Some(text), user).Some?
    ensures ScanLines(Deleted(Some(text), user).value) == Others(ScanLines(text), user)
       <==> forall ln | ln in ScanLines(text) && LineUser(ln) != user :: !EndsInCr(ln)
  {
    hide LineUser, ScanLines, WriteLines, Others, EndsInCr;
    var lines := ScanLines(text);
    ScannedHasNoNewline(text);
    OthersMembers(lines, user);
    RereadSameIff(Others(lines, user));
  }

  /** Deleting the empty user is a no-op, although comments and malformed lines carry that name. */
  lemma DeleteEmptyUser(file: Option<string>)
    ensures Deleted(file, "") == file
  {
  }

  // ------------------------------------------------ files as the tool prints them

  // A user's line, possibly indented, or a line that belongs to nobody.
  datatype FileLine = Entry(indent: string, user: string, rest: string) | Note(text: string)

  predicate PlainUser(user: string) {
    user != "" && Text.Trimmed(user) && ':' !in user && Text.NL !in user && user[0] != '#'
  }

  // Comments, blank lines, lines without a colon and lines that start with one.
  predicate Ownerless(line: string) {
    var t := Text.Trim(line);
    t == "" || t[0] == '#' || t[0] == ':' || ':' !in t
  }

  function PrintLine(l: FileLine): string {
    match l
    case Entry(indent, user, rest) => indent + user + ":" + rest
    case Note(text) => text
  }

  function PrintLines(ls: seq<FileLine>): (lines: seq<string>)
    ensures |lines| == |ls|
    ensures forall i | 0 <= i < |ls| :: lines[i] == PrintLine(ls[i])
  {
    if ls == [] then [] else [PrintLine(ls[0])] + PrintLines(ls[1..])
  }

  // The file: every line ended by a newline.
  function PrintFile(ls: seq<FileLine>): string {
    if ls == [] then "" else PrintLine(ls[0]) + "\n" + PrintFile(ls[1..])
  }

  predicate Proper(l: FileLine) {
    && Text.NL !in PrintLine(l) && !EndsInCr(PrintLine(l))
    && match l
       case Entry(indent, user, _) => Text.AllSpace(indent) && PlainUser(user)
       case Note(text) => Ownerless(text)
  }

  predicate AllProper(ls: seq<FileLine>) {
    forall i | 0 <= i < |ls| :: Proper(ls[i])
  }

  function Users(ls: seq<FileLine>): set<string> {
    set l | l in ls && l.Entry? :: l.user
  }

  function Without(ls: seq<FileLine>, user: string): seq<FileLine> {
    if ls == [] then []
    else (if ls[0].Entry? && ls[0].user == user then [] else [ls[0]]) + Without(ls[1..], user)
  }

  lemma {:induction false} TrimLeftOf(indent: string, s: string)
    requires Text.AllSpace(indent) && s != "" && !Text.IsSpace(s[0])
    ensures Text.TrimLeft(indent + s) == s
  {
    hide Text.IsSpace;
    if indent == "" {
      assert indent + s == s;
    } else {
      assert (indent + s)[1..] == indent[1..] + s;
      TrimLeftOf(indent[1..], s);
    }
  }

  lemma {:induction false} TrimRightOf(s: string, rest: string)
    requires s != "" && !Text.IsSpace(s[|s| - 1])
    ensures s <= Text.TrimRight(s + rest)
  {
    hide Text.IsSpace;
    if rest == "" {
      assert s + rest == s;
    } else {
      var front := rest[..|rest| - 1];
      assert (s + rest)[..|s + rest| - 1] == s + front;
      TrimRightOf(s, front);
    }
  }

  /** A line user:rest belongs to the user, however it is indented and whatever follows the first colon. */
  lemma OwnLine(indent: string, user: string, rest: string)
    requires Text.AllSpace(indent) && PlainUser(user)
    ensures LineUser(indent + user + ":" + rest) == user
  {
    hide Text.IsSpace, Text.Split;
    var start := user + ":";
    assert !Text.IsSpace(':') by { NoSpaceColon(); }
    assert indent + user + ":" + rest == indent + (start + rest);
    TrimLeftOf(indent, start + rest);
    TrimRightOf(start, rest);
    var t := Text.TrimRight(start + rest);
    assert t[..|start|] == start;
    var more := t[|start|..];
    assert t == user + [':'] + more;
    assert t[0] == user[0];
    Text.SplitCons(user, more, ':');
  }

  lemma NoSpaceColon()
    ensures !Text.IsSpace(':')
  {
  }

  /** Any other line belongs to nobody. */
  lemma NobodysLine(line: string)
    requires Ownerless(line)
    ensures LineUser(line) == ""
  {
    hide Text.Trim, Text.Split;
    var t := Text.Trim(line);
    if t != "" && ':' !in t {
      Text.SplitWhole(t, ':');
    } else if t != "" && t[0] == ':' {
      assert t == "" + [':'] + t[1..];
      Text.SplitCons("", t[1..], ':');
    }
  }

  lemma LineOwner(l: FileLine)
    requires Proper(l)
    ensures LineUser(PrintLine(l)) == match l case Entry(_, user, _) => user case Note(_) => ""
  {
    hide LineUser, PlainUser, Ownerless, Text.AllSpace;
    match l
    case Entry(indent, user, rest) => OwnLine(indent, user, rest);
    case Note(text) => NobodysLine(text);
  }

  lemma {:induction false} PrintedFile(ls: seq<FileLine>)
    ensures PrintFile(ls) == WriteLines(PrintLines(ls))
  {
    hide PrintLine;
    if ls != [] {
      PrintedFile(ls[1..]);
      assert PrintLines(ls)[1..] == PrintLines(ls[1..]);
    }
  }

  lemma PrintedScans(ls: seq<FileLine>)
    requires AllProper(ls)
    ensures ScanLines(PrintFile(ls)) == PrintLines(ls)
  {
    hide ScanLines, WriteLines, PrintFile, PrintLine, EndsInCr;
    PrintedFile(ls);
    var lines := PrintLines(ls);
    forall ln | ln in lines ensures Text.NL !in ln && !EndsInCr(ln) {
      var i :| 0 <= i < |lines| && lines[i] == ln;
      assert Proper(ls[i]);
    }
    RereadSameIff(lines);
  }

  lemma PrintedUsers(ls: seq<FileLine>)
    requires AllProper(ls)
    ensures UsersOf(PrintLines(ls)) == Users(ls)
  {
    hide LineUser, PrintLine, Proper;
    var lines := PrintLines(ls);
    forall u ensures u in UsersOf(lines) <==> u in Users(ls) {
      if u in UsersOf(lines) {
        var ln :| ln in lines && LineUser(ln) != "" && LineUser(ln) == u;
        var i :| 0 <= i < |lines| && lines[i] == ln;
        LineOwner(ls[i]);
        assert ls[i] in ls;
      }
      if u in Users(ls) {
        var l :| l in ls && l.Entry? && l.user == u;
        var i :| 0 <= i < |ls| && ls[i] == l;
        LineOwner(l);
        EntryUser(l);
        assert lines[i] in lines;
      }
    }
  }

  lemma EntryUser(l: FileLine)
    requires Proper(l) && l.Entry?
    ensures l.user != ""
  {
  }

  lemma {:induction false} PrintedOthers(ls: seq<FileLine>, user: string)
    requires AllProper(ls) && user != ""
    ensures Others(PrintLines(ls), user) == PrintLines(Without(ls, user))
  {
    hide LineUser, PrintLine, Proper;
    if ls != [] {
      LineOwner(ls[0]);
      PrintedOthers(ls[1..], user);
      assert PrintLines(ls)[1..] == PrintLines(ls[1..]);
    }
  }

  lemma {:induction false} WithoutNobody(ls: seq<FileLine>, user: string)
    requires user !in Users(ls)
    ensures Without(ls, user) == ls
  {
    if ls != [] {
      assert ls[0] in ls && forall l | l in ls[1..] :: l in ls;
      WithoutNobody(ls[1..], user);
      assert ls == [ls[0]] + ls[1..];
    }
  }

  /**
   * In a file of user lines, comments and malformed lines, the users are those of
   * the user lines, and a deletion leaves every other line, byte for byte.
   */
  lemma PrintedDeletion(ls: seq<FileLine>, user: string)
    requires AllProper(ls)
    ensures FileUsers(Some(PrintFile(ls))) == Users(ls)
    ensures Deleted(Some(PrintFile(ls)), user) == Some(PrintFile(Without(ls, user)))
  {
    hide LineUser, ScanLines, UsersOf, Others, WriteLines, PrintFile, PrintLine, PrintLines, Proper, Users, Without;
    PrintedScans(ls);
    PrintedUsers(ls);
    if user in Users(ls) {
      UsersNamed(ls, user);
      PrintedOthers(ls, user);
      PrintedFile(Without(ls, user));
    } else {
      WithoutNobody(ls, user);
    }
  }

  lemma UsersNamed(ls: seq<FileLine>, user: string)
    requires AllProper(ls) && user in Users(ls)
    ensures user != ""
  {
    hide Proper;
    var l :| l in ls && l.Entry? && l.user == user;
    var i :| 0 <= i < |ls| && ls[i] == l;
    EntryUser(l);
  }
}
