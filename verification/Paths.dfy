/** The lexical path functions of Go's `path/filepath` on Unix, and the name check of the address pins. */
module Paths {
  import Text

  predicate Rooted(path: string) {
    path != "" && path[0] == '/'
  }

  // The component loop of filepath.Clean: `out` holds the components kept so far.
  function Reduce(parts: seq<string>, rooted: bool, out: seq<string>): seq<string> {
    if parts == [] then out
    else
      var p := parts[0];
      Reduce(parts[1..], rooted,
             if p == "" || p == "." then out
             else if p == ".." then
               if out != [] && out[|out| - 1] != ".." then out[..|out| - 1]
               else if rooted then out
               else out + [".."]
             else out + [p])
  }

  function Spell(rooted: bool, out: seq<string>): string {
    if out == [] then (if rooted then "/" else ".")
    else (if rooted then "/" else "") + Text.Join(out, "/")
  }

  function Components(path: string): seq<string> {
    Reduce(Text.Split(path, '/'), Rooted(path), [])
  }

  function Clean(path: string): string {
    Spell(Rooted(path), Components(path))
  }

  // filepath.Join of two elements: leading empty elements are dropped.
  function Join(dir: string, name: string): string {
    if dir == "" then (if name == "" then "" else Clean(name))
    else Clean(dir + "/" + name)
  }

  function StripSlashes(path: string): string {
    if path != "" && path[|path| - 1] == '/' then StripSlashes(path[..|path| - 1]) else path
  }

  function Base(path: string): string {
    if path == "" then "."
    else
      var parts := Text.Split(StripSlashes(path), '/');
      var last := parts[|parts| - 1];
      if last == "" then "/" else last
  }

  /** filepath.Base is the last element, trailing slashes aside. */
  lemma BaseIsLast(dir: string, name: string)
    requires name != "" && '/' !in name
    ensures Base(name) == name && Base(name + "/") == name
    ensures Base(dir + "/" + name) == name && Base(dir + "/" + name + "/") == name
  {
    hide Text.Split;
    var path := dir + "/" + name;
    assert path[|path| - 1] == name[|name| - 1] && name[|name| - 1] in name;
    assert (name + "/")[..|name|] == name && (path + "/")[..|path|] == path;
    assert StripSlashes(path) == path && StripSlashes(name) == name;
    Text.SplitWhole(name, '/');
    Text.SplitSnoc(dir, name, '/');
    assert dir + ['/'] + name == path;
  }

  predicate Control(c: char) {
    c < ' ' || c == '\U{007F}'
  }

  // validPerUserName, check by check.
  predicate ValidPerUserName(cn: string) {
    && cn != ""
    && cn != "." && cn != ".."
    && '/' !in cn && '\\' !in cn
    && cn == Base(cn) && cn == Clean(cn)
    && forall i | 0 <= i < |cn| :: !Control(cn[i])
  }

  // A single path element that means itself.
  predicate Plain(name: string) {
    name != "" && name != "." && name != ".." && '/' !in name
  }

  lemma PlainIsClean(name: string)
    requires Plain(name)
    ensures Clean(name) == name && Base(name) == name && !Rooted(name)
  {
    Text.SplitWhole(name, '/');
    assert name[0] in name && name[|name| - 1] in name;
    assert Reduce([name], false, []) == Reduce([], false, [] + [name]);
  }

  /** What the check really accepts: the Base and Clean comparisons reject nothing further. */
  lemma ValidPerUserNameExactly(cn: string)
    ensures ValidPerUserName(cn) <==>
              && cn != "" && cn != "." && cn != ".." && '/' !in cn && '\\' !in cn
              && forall i | 0 <= i < |cn| :: cn[i] as int >= 32 && cn[i] as int != 127
  {
    forall i | 0 <= i < |cn| ensures Control(cn[i]) <==> cn[i] as int < 32 || cn[i] as int == 127 {
    }
    if Plain(cn) {
      PlainIsClean(cn);
    }
  }

  lemma {:induction false} ReduceSnoc(parts: seq<string>, last: string, rooted: bool, out: seq<string>)
    ensures Reduce(parts + [last], rooted, out) == Reduce([last], rooted, Reduce(parts, rooted, out))
  {
    if parts == [] {
      assert parts + [last] == [last];
    } else {
      assert (parts + [last])[1..] == parts[1..] + [last];
      var p := parts[0];
      var out' := if p == "" || p == "." then out
                  else if p == ".." then
                    if out != [] && out[|out| - 1] != ".." then out[..|out| - 1]
                    else if rooted then out
                    else out + [".."]
                  else out + [p];
      ReduceSnoc(parts[1..], last, rooted, out');
    }
  }

  lemma ReducePlain(parts: seq<string>, last: string, rooted: bool, out: seq<string>)
    requires Plain(last)
    ensures Reduce(parts + [last], rooted, out) == Reduce(parts, rooted, out) + [last]
  {
    ReduceSnoc(parts, last, rooted, out);
    assert Reduce([last], rooted, Reduce(parts, rooted, out))
        == Reduce([], rooted, Reduce(parts, rooted, out) + [last]);
  }

  // The stack of a clean path: plain components, and `..` only in front of a relative one.
  predicate Reduced(rooted: bool, out: seq<string>) {
    forall i | 0 <= i < |out| ::
      Plain(out[i]) || (out[i] == ".." && !rooted && forall j | 0 <= j < i :: out[j] == "..")
  }

  lemma {:induction false} ReduceReduced(parts: seq<string>, rooted: bool, out: seq<string>)
    requires Reduced(rooted, out)
    requires forall p | p in parts :: '/' !in p
    ensures Reduced(rooted, Reduce(parts, rooted, out))
  {
    if parts != [] {
      var p := parts[0];
      var out' := if p == "" || p == "." then out
                  else if p == ".." then
                    if out != [] && out[|out| - 1] != ".." then out[..|out| - 1]
                    else if rooted then out
                    else out + [".."]
                  else out + [p];
      assert Reduced(rooted, out');
      ReduceReduced(parts[1..], rooted, out');
    }
  }

  lemma ComponentsReduced(path: string)
    ensures Reduced(Rooted(path), Components(path))
  {
    ReduceReduced(Text.Split(path, '/'), Rooted(path), []);
  }

  lemma {:induction false} ReduceFixed(parts: seq<string>, rooted: bool, out: seq<string>)
    requires Reduced(rooted, out + parts)
    ensures Reduce(parts, rooted, out) == out + parts
  {
    if parts == [] {
      assert out + parts == out;
    } else {
      assert (out + parts)[|out|] == parts[0];
      assert forall j | 0 <= j < |out| :: (out + parts)[j] == out[j];
      assert out + [parts[0]] + parts[1..] == out + parts;
      ReduceFixed(parts[1..], rooted, out + [parts[0]]);
    }
  }

  lemma SpellComponents(rooted: bool, out: seq<string>)
    requires out != [] && Reduced(rooted, out)
    ensures Rooted(Spell(rooted, out)) == rooted
    ensures Components(Spell(rooted, out)) == out
  {
    var text := Text.Join(out, "/");
    assert "/" == ['/'];
    forall p | p in out ensures '/' !in p {
      var i :| 0 <= i < |out| && out[i] == p;
    }
    Text.SplitJoin(out, '/');
    assert Plain(out[0]) || out[0] == "..";
    assert text[0] == out[0][0];
    assert out[0][0] in out[0];
    ReduceFixed(out, rooted, []);
    assert [] + out == out;
    if rooted {
      Text.SplitCons("", text, '/');
      assert Spell(rooted, out) == "" + ['/'] + text;
      assert Text.Split(Spell(rooted, out), '/') == [""] + out;
      assert Reduce([""] + out, true, []) == Reduce(([""] + out)[1..], true, []);
      assert ([""] + out)[1..] == out;
    } else {
      assert Spell(rooted, out) == text;
    }
  }

  lemma CleanUnder(dir: string, name: string)
    requires dir != "" && Plain(name)
    ensures Clean(dir + "/" + name) == Spell(Rooted(dir), Components(dir) + [name])
  {
    Text.SplitSnoc(dir, name, '/');
    assert "/" == ['/'];
    ReducePlain(Text.Split(dir, '/'), name, Rooted(dir), []);
    assert (dir + "/" + name)[0] == dir[0];
  }

  lemma SpellSnoc(rooted: bool, out: seq<string>, name: string)
    requires out != []
    ensures Spell(rooted, out + [name]) == Spell(rooted, out) + "/" + name
  {
    Text.JoinSnoc(out, name, "/");
  }

  lemma JoinPlain(rooted: bool, out: seq<string>, name: string)
    requires out != [] && Reduced(rooted, out) && Plain(name)
    ensures Join(Spell(rooted, out), name) == Spell(rooted, out) + "/" + name
  {
    hide Spell, Reduced, Components;
    SpellComponents(rooted, out);
    SpellSnoc(rooted, out, name);
    SpellNonEmpty(rooted, out);
    CleanUnder(Spell(rooted, out), name);
  }

  lemma SpellNonEmpty(rooted: bool, out: seq<string>)
    requires out != [] && Reduced(rooted, out)
    ensures Spell(rooted, out) != ""
  {
    assert Plain(out[0]) || out[0] == "..";
  }

  lemma CleanNonEmpty(path: string)
    ensures Clean(path) != ""
  {
    hide Spell, Components, Rooted;
    ComponentsReduced(path);
    if Components(path) == [] {
      SpellNothing(Rooted(path));
    } else {
      SpellNonEmpty(Rooted(path), Components(path));
    }
  }

  lemma SpellNothing(rooted: bool)
    ensures Spell(rooted, []) != ""
  {
  }

  lemma JoinNonEmpty(dir: string, name: string)
    requires name != ""
    ensures Join(dir, name) != ""
  {
    hide Clean;
    CleanNonEmpty(name);
    CleanNonEmpty(dir + "/" + name);
  }

  /** Joining a plain name to a directory whose own last element is plain. */
  lemma JoinUnderPlain(top: string, dirName: string) returns (out: seq<string>)
    requires Plain(dirName)
    ensures Reduced(Rooted(top), out) && out != [] && out[|out| - 1] == dirName
    ensures Join(top, dirName) == Spell(Rooted(top), out)
  {
    if top == "" {
      PlainIsClean(dirName);
      out := [dirName];
      assert Text.Join(out, "/") == dirName;
    } else {
      Text.SplitSnoc(top, dirName, '/');
      ReducePlain(Text.Split(top, '/'), dirName, Rooted(top), []);
      out := Components(top) + [dirName];
      ComponentsReduced(top + "/" + dirName);
      assert Rooted(top + "/" + dirName) == Rooted(top);
    }
  }

  lemma {:induction false} ReduceWithin(parts: seq<string>, rooted: bool, out: seq<string>)
    ensures forall p | p in Reduce(parts, rooted, out) :: p in parts || p in out || p == ".."
  {
    if parts != [] {
      var p := parts[0];
      var next := if p == "" || p == "." then out
                  else if p == ".." then
                    if out != [] && out[|out| - 1] != ".." then out[..|out| - 1]
                    else if rooted then out
                    else out + [".."]
                  else out + [p];
      ReduceWithin(parts[1..], rooted, next);
      assert forall q | q in next :: q in out || q == p;
    }
  }

  // Cleaning brings in no character but slashes and dots.
  lemma CleanWithout(path: string, c: char)
    requires c !in path && c != '/' && c != '.'
    ensures c !in Clean(path)
  {
    var parts := Text.Split(path, '/');
    Text.SplitWithout(path, '/', c);
    ReduceWithin(parts, Rooted(path), []);
    var out := Components(path);
    assert forall p | p in out :: c !in p;
    hide Reduce, Text.Split, Text.Join;
    Text.JoinWithout(out, "/", c);
  }

  lemma JoinWithout(dir: string, name: string, c: char)
    requires c !in dir && c !in name && c != '/' && c != '.'
    ensures c !in Join(dir, name)
  {
    hide Clean;
    if dir == "" {
      if name != "" {
        CleanWithout(name, c);
      }
    } else {
      CleanWithout(dir + "/" + name, c);
    }
  }

  // perUserDir and perUserPath of the manager.
  function PerUserDir(stateDir: string, instance: string): string {
    Join(stateDir, instance + ".per-user")
  }

  function PerUserPath(stateDir: string, instance: string, cn: string): string {
    Join(PerUserDir(stateDir, instance), cn)
  }

  // The assumption on instance names: one path element.
  predicate SafeName(instance: string) {
    '/' !in instance
  }

  /** The pin file lies directly in the per-user directory and is called exactly like the client. */
  lemma PinPath(stateDir: string, instance: string, cn: string)
    requires SafeName(instance) && ValidPerUserName(cn)
    ensures PerUserPath(stateDir, instance, cn) == PerUserDir(stateDir, instance) + "/" + cn
  {
    SafePlain(instance);
    var out := JoinUnderPlain(stateDir, instance + ".per-user");
    JoinPlain(Rooted(stateDir), out, cn);
  }

  lemma LastSlash(a: string, x: string, b: string, y: string)
    requires '/' !in x && '/' !in y
    requires a + "/" + x == b + "/" + y
    ensures a == b && x == y
  {
    Text.SplitSnoc(a, x, '/');
    Text.SplitSnoc(b, y, '/');
    assert "/" == ['/'];
    assert (Text.Split(a, '/') + [x])[|Text.Split(a, '/')|] == (Text.Split(b, '/') + [y])[|Text.Split(b, '/')|];
    assert a == (a + "/" + x)[..|a|] && b == (b + "/" + y)[..|b|];
  }

  lemma SafePlain(instance: string)
    requires SafeName(instance)
    ensures Plain(instance + ".per-user")
  {
    assert |instance + ".per-user"| >= 9;
  }

  lemma PerUserDirOf(stateDir: string, instance: string)
    ensures PerUserDir(stateDir, instance) == Join(stateDir, instance + ".per-user")
  {
    hide Join;
  }

  lemma PerUserDirInjective(stateDir: string, i: string, j: string)
    requires SafeName(i) && SafeName(j)
    requires PerUserDir(stateDir, i) == PerUserDir(stateDir, j)
    ensures i == j
  {
    hide *;
    SafePlain(i);
    SafePlain(j);
    var x, y := i + ".per-user", j + ".per-user";
    var xs := JoinUnderPlain(stateDir, x);
    var ys := JoinUnderPlain(stateDir, y);
    PerUserDirOf(stateDir, i);
    PerUserDirOf(stateDir, j);
    SpellComponents(Rooted(stateDir), xs);
    SpellComponents(Rooted(stateDir), ys);
    assert x == y;
    assert i == x[..|x| - 9] && j == y[..|y| - 9];
  }

  /** Different clients, or clients of different instances, never share a pin file. */
  lemma PinPathInjective(stateDir: string, i: string, x: string, j: string, y: string)
    requires SafeName(i) && SafeName(j) && ValidPerUserName(x) && ValidPerUserName(y)
    requires PerUserPath(stateDir, i, x) == PerUserPath(stateDir, j, y)
    ensures i == j && x == y
  {
    PinPath(stateDir, i, x);
    PinPath(stateDir, j, y);
    LastSlash(PerUserDir(stateDir, i), x, PerUserDir(stateDir, j), y);
    PerUserDirInjective(stateDir, i, j);
  }
}
