/** Keyboard shortcuts: key strings are brought to one normal form
    (lower case, modifiers first in sorted order, then the main key, joined
    with '+'), a registry maps normal forms to shortcuts, and a key-down
    event fires the shortcut registered under the event's own normal form
    unless shortcuts are disabled or the user is typing into a field.
    Callbacks are identified by their description and recorded in a log
    of fired shortcuts. */
module KeyboardShortcuts {
  import opened Common

  datatype Shortcut = Shortcut(key: string, description: string)

  /** The event target's tag name and its contentEditable attribute. */
  datatype Element = Element(tagName: string, contentEditable: string)

  datatype KeyEvent = KeyEvent(key: string, ctrlKey: bool, shiftKey: bool, altKey: bool, metaKey: bool, target: Element)

  // ---------------------------------------------------------------------
  // split('+') and join('+')

  /** The last '+' of s, −1 when there is none. */
  function LastPlus(s: string): (r: int)
    ensures -1 <= r < |s|
    ensures r == -1 ==> '+' !in s
    ensures r >= 0 ==> s[r] == '+' && '+' !in s[r + 1..]
  {
    var r := LastPlusBefore(s, |s|);
    NoPlusAfter(s, r + 1);
    r
  }

  /** The last '+' among the first n characters of s, −1 when there is none. */
  function LastPlusBefore(s: string, n: int): (r: int)
    requires 0 <= n <= |s|
    ensures -1 <= r < n
    ensures r >= 0 ==> s[r] == '+'
    ensures forall j :: r < j < n ==> s[j] != '+'
    decreases n
  {
    if n == 0 then -1
    else if s[n - 1] == '+' then n - 1
    else LastPlusBefore(s, n - 1)
  }

  lemma NoPlusAfter(s: string, a: int)
    requires 0 <= a <= |s|
    requires forall j :: a <= j < |s| ==> s[j] != '+'
    ensures '+' !in s[a..]
  {
    var t := s[a..];
    forall k | 0 <= k < |t| ensures t[k] != '+' {
      assert t[k] == s[a + k];
    }
  }

  /** String.prototype.split('+'): at least one part, none holding a '+'. */
  function Split(s: string): (parts: seq<string>)
    ensures |parts| >= 1 && NoPlus(parts)
    decreases |s|
  {
    var i := LastPlus(s);
    if i < 0 then [s]
    else
      var init := Split(s[..i]);
      NoPlusAppend(init, s[i + 1..]);
      init + [s[i + 1..]]
  }

  /** Array.prototype.join('+') on a non-empty list. */
  function Join(parts: seq<string>): string
    requires |parts| >= 1
  {
    if |parts| == 1 then parts[0] else Join(parts[..|parts| - 1]) + "+" + parts[|parts| - 1]
  }

  predicate NoPlus(parts: seq<string>)
  {
    forall k :: 0 <= k < |parts| ==> '+' !in parts[k]
  }

  lemma NoPlusAppend(parts: seq<string>, last: string)
    requires NoPlus(parts) && '+' !in last
    ensures NoPlus(parts + [last])
  {
    forall k | 0 <= k < |parts| + 1 ensures '+' !in (parts + [last])[k] {
      if k < |parts| {
        assert (parts + [last])[k] == parts[k];
      }
    }
  }

  /** The last '+' of a joined list sits just before its last part. */
  lemma {:induction false} LastPlusBeforeLastPart(s: string, t: string)
    requires '+' !in t
    ensures LastPlus(s + "+" + t) == |s|
    decreases |t|
  {
    var u := s + "+" + t;
    if |t| > 0 {
      LastPlusBeforeLastPart(s, t[..|t| - 1]);
      assert u[..|u| - 1] == s + "+" + t[..|t| - 1];
      assert u[|u| - 1] == t[|t| - 1];
    }
  }

  /** Splitting a joined list of '+'-free parts gives back the parts. */
  lemma {:induction false} SplitJoin(parts: seq<string>)
    requires |parts| >= 1 && NoPlus(parts)
    ensures Split(Join(parts)) == parts
    decreases |parts|
  {
    if |parts| > 1 {
      var init, last := parts[..|parts| - 1], parts[|parts| - 1];
      SplitJoin(init);
      var j := Join(init);
      LastPlusBeforeLastPart(j, last);
      var s := j + "+" + last;
      assert s[..|j|] == j;
      assert s[|j| + 1..] == last;
      assert Split(s) == Split(j) + [last];
      assert init + [last] == parts;
    } else {
      assert LastPlus(parts[0]) == -1;
    }
  }

  /** Joining the parts of a split gives back the string. */
  lemma {:induction false} JoinSplit(s: string)
    ensures Join(Split(s)) == s
    decreases |s|
  {
    var i := LastPlus(s);
    if i >= 0 {
      var init, last := Split(s[..i]), s[i + 1..];
      assert Split(s) == init + [last];
      JoinSplit(s[..i]);
      JoinAppend(init, last);
      assert s == s[..i] + "+" + last;
    }
  }

  lemma JoinAppend(parts: seq<string>, last: string)
    requires |parts| >= 1
    ensures Join(parts + [last]) == Join(parts) + "+" + last
  {
    assert (parts + [last])[..|parts|] == parts;
  }

  /** Splitting a lower-case string gives lower-case parts. */
  lemma {:induction false} SplitLower(s: string)
    requires IsLower(s)
    ensures forall k :: 0 <= k < |Split(s)| ==> IsLower(Split(s)[k])
    decreases |s|
  {
    var i := LastPlus(s);
    if i >= 0 {
      SplitLower(s[..i]);
    }
  }

  /** Joining lower-case parts gives a lower-case string. */
  lemma {:induction false} JoinLower(parts: seq<string>)
    requires |parts| >= 1 && forall k :: 0 <= k < |parts| ==> IsLower(parts[k])
    ensures IsLower(Join(parts))
    decreases |parts|
  {
    if |parts| > 1 {
      JoinLower(parts[..|parts| - 1]);
    }
  }

  // ---------------------------------------------------------------------
  // Modifiers and their sort

  predicate IsModifier(part: string)
  {
    part == "ctrl" || part == "shift" || part == "alt" || part == "meta"
  }

  predicate AllModifiers(parts: seq<string>)
  {
    forall k :: 0 <= k < |parts| ==> IsModifier(parts[k])
  }

  /** JavaScript's default string order: code unit by code unit, a proper
      prefix first. */
  predicate StringLess(a: string, b: string)
  {
    if |a| == 0 then |b| > 0
    else if |b| == 0 then false
    else if a[0] != b[0] then a[0] < b[0]
    else StringLess(a[1..], b[1..])
  }

  /** The modifiers' places in that order: alt, ctrl, meta, shift. */
  function ModifierRank(part: string): int
  {
    if part == "alt" then 0 else if part == "ctrl" then 1 else if part == "meta" then 2 else 3
  }

  /** Rank order is JavaScript's string order on the four modifier names. */
  lemma RankIsStringOrder(a: string, b: string)
    requires IsModifier(a) && IsModifier(b)
    ensures ModifierRank(a) < ModifierRank(b) <==> StringLess(a, b)
  {
    assert StringLess("alt", "ctrl") && StringLess("ctrl", "meta") && StringLess("meta", "shift");
    assert StringLess("alt", "meta") && StringLess("alt", "shift") && StringLess("ctrl", "shift");
    assert !StringLess("ctrl", "alt") && !StringLess("meta", "ctrl") && !StringLess("shift", "meta");
    assert !StringLess("meta", "alt") && !StringLess("shift", "alt") && !StringLess("shift", "ctrl");
    assert !StringLess("alt", "alt") && !StringLess("ctrl", "ctrl") && !StringLess("meta", "meta");
    assert !StringLess("shift", "shift");
  }

  predicate RankSorted(parts: seq<string>)
  {
    forall i, j :: 0 <= i < j < |parts| ==> ModifierRank(parts[i]) <= ModifierRank(parts[j])
  }

  function Copies(x: string, n: nat): (r: seq<string>)
    ensures |r| == n && forall k :: 0 <= k < n ==> r[k] == x
  {
    seq(n, _ => x)
  }

  lemma {:induction false} CopiesCount(x: string, n: nat, y: string)
    ensures multiset(Copies(x, n))[y] == if y == x then n else 0
  {
    if n > 0 {
      CopiesCount(x, n - 1, y);
      assert Copies(x, n) == Copies(x, n - 1) + [x];
    }
  }

  /** Array.prototype.sort on modifier names: all alts, then ctrls, metas
      and shifts; it depends only on how often each name occurs. */
  function SortModifiers(mods: seq<string>): seq<string>
  {
    var count := multiset(mods);
    Copies("alt", count["alt"]) + Copies("ctrl", count["ctrl"]) + Copies("meta", count["meta"]) + Copies("shift", count["shift"])
  }

  lemma RankSortedConcat(a: seq<string>, b: seq<string>)
    requires RankSorted(a) && RankSorted(b)
    requires forall i, j :: 0 <= i < |a| && 0 <= j < |b| ==> ModifierRank(a[i]) <= ModifierRank(b[j])
    ensures RankSorted(a + b)
  {
  }

  /** The sort lists alts, ctrls, metas and shifts in that rank order. */
  lemma SortModifiersRankSorted(mods: seq<string>)
    ensures RankSorted(SortModifiers(mods))
  {
    var count := multiset(mods);
    var a, c, m, s := Copies("alt", count["alt"]), Copies("ctrl", count["ctrl"]), Copies("meta", count["meta"]), Copies("shift", count["shift"]);
    RankSortedConcat(a, c);
    RankSortedConcat(a + c, m);
    RankSortedConcat(a + c + m, s);
  }

  /** The sort keeps every modifier name as often as it occurs. */
  lemma SortModifiersCounts(mods: seq<string>)
    requires AllModifiers(mods)
    ensures multiset(SortModifiers(mods)) == multiset(mods)
  {
    var count := multiset(mods);
    var r := SortModifiers(mods);
    forall y ensures multiset(r)[y] == count[y] {
      CopiesCount("alt", count["alt"], y);
      CopiesCount("ctrl", count["ctrl"], y);
      CopiesCount("meta", count["meta"], y);
      CopiesCount("shift", count["shift"], y);
      if !IsModifier(y) {
        assert y !in mods;
      }
    }
  }

  lemma SortModifiersAll(mods: seq<string>)
    ensures AllModifiers(SortModifiers(mods))
  {
    var count := multiset(mods);
    var a, c, m, s := Copies("alt", count["alt"]), Copies("ctrl", count["ctrl"]), Copies("meta", count["meta"]), Copies("shift", count["shift"]);
    assert SortModifiers(mods) == a + c + m + s;
  }

  lemma SortModifiersStringOrder(mods: seq<string>)
    ensures var r := SortModifiers(mods);
      forall i, j :: 0 <= i < j < |r| ==> !StringLess(r[j], r[i])
  {
    var r := SortModifiers(mods);
    SortModifiersRankSorted(mods);
    SortModifiersAll(mods);
    forall i, j | 0 <= i < j < |r| ensures !StringLess(r[j], r[i]) {
      RankIsStringOrder(r[j], r[i]);
    }
  }

  /** The sort puts modifier names in JavaScript's string order and keeps
      every one of them. */
  lemma SortModifiersSpec(mods: seq<string>)
    requires AllModifiers(mods)
    ensures var r := SortModifiers(mods);
      && AllModifiers(r)
      && multiset(r) == multiset(mods)
      && (forall i, j :: 0 <= i < j < |r| ==> !StringLess(r[j], r[i]))
  {
    SortModifiersAll(mods);
    SortModifiersStringOrder(mods);
    SortModifiersCounts(mods);
  }

  /** Sorting a sorted list changes nothing. */
  lemma SortModifiersTwice(mods: seq<string>)
    requires AllModifiers(mods)
    ensures SortModifiers(SortModifiers(mods)) == SortModifiers(mods)
  {
    SortModifiersCounts(mods);
  }

  /** The modifier parts, in order. */
  function Modifiers(parts: seq<string>): (mods: seq<string>)
    ensures AllModifiers(mods)
  {
    if |parts| == 0 then []
    else Modifiers(parts[..|parts| - 1]) + (if IsModifier(parts[|parts| - 1]) then [parts[|parts| - 1]] else [])
  }

  /** The last part that is not a modifier, "" when there is none. */
  function MainKey(parts: seq<string>): (main: string)
    ensures !IsModifier(main)
    ensures main == "" || main in parts
  {
    if |parts| == 0 then ""
    else if !IsModifier(parts[|parts| - 1]) then parts[|parts| - 1]
    else MainKey(parts[..|parts| - 1])
  }

  lemma {:induction false} ModifiersOfModifiers(mods: seq<string>)
    requires AllModifiers(mods)
    ensures Modifiers(mods) == mods
  {
    if |mods| > 0 {
      ModifiersOfModifiers(mods[..|mods| - 1]);
    }
  }

  /** normalizeKey as a function of the key. */
  function Normalize(key: string): string
  {
    var parts := Split(Lower(key));
    Join(SortModifiers(Modifiers(parts)) + [MainKey(parts)])
  }

  /** Dropping a trailing non-modifier leaves the modifiers, and it is the main key. */
  lemma AppendMainKey(xs: seq<string>, y: string)
    requires !IsModifier(y)
    ensures Modifiers(xs + [y]) == Modifiers(xs)
    ensures MainKey(xs + [y]) == y
  {
    assert (xs + [y])[..|xs|] == xs;
  }

  /** The parts of a normal form are lower case and '+'-free. */
  lemma NormalParts(sorted: seq<string>, main: string)
    requires AllModifiers(sorted) && '+' !in main && IsLower(main)
    ensures var list := sorted + [main];
      NoPlus(list) && forall k :: 0 <= k < |list| ==> IsLower(list[k])
  {
  }

  /** The normal form built from sorted modifiers and a lower-case,
      '+'-free main key that is not a modifier is a fixed point of Normalize. */
  lemma NormalFormIsFixed(mods: seq<string>, main: string)
    requires AllModifiers(mods) && !IsModifier(main) && '+' !in main && IsLower(main)
    ensures var out := Join(SortModifiers(mods) + [main]); Normalize(out) == out
  {
    var sorted := SortModifiers(mods);
    SortModifiersSpec(mods);
    var list := sorted + [main];
    var out := Join(list);
    NormalParts(sorted, main);
    JoinLower(list);
    LowerOfLower(out);
    SplitJoin(list);
    assert Split(Lower(out)) == list;
    ModifiersOfModifiers(sorted);
    AppendMainKey(sorted, main);
    SortModifiersTwice(mods);
  }

  /** normalizeKey is idempotent. */
  lemma NormalizeIdempotent(key: string)
    ensures Normalize(Normalize(key)) == Normalize(key)
  {
    var parts := Split(Lower(key));
    LowerIsLower(key);
    SplitLower(Lower(key));
    var main := MainKey(parts);
    if main != "" {
      var k :| 0 <= k < |parts| && parts[k] == main;
    }
    NormalFormIsFixed(Modifiers(parts), main);
  }

  lemma LowerNoPlus(s: string)
    requires '+' !in s
    ensures '+' !in Lower(s)
  {
    forall i | 0 <= i < |s| ensures Lower(s)[i] != '+' {
      assert s[i] != '+';
    }
  }

  /** A '+'-free key that is not a modifier name normalizes to its lower case. */
  lemma NormalizePlain(key: string)
    requires '+' !in key && !IsModifier(Lower(key))
    ensures Normalize(key) == Lower(key)
  {
    LowerNoPlus(key);
    assert LastPlus(Lower(key)) == -1;
    assert Split(Lower(key)) == [Lower(key)];
    assert Modifiers([Lower(key)]) == [];
  }

  /** Normalize on a key whose lower case joins the given '+'-free parts. */
  lemma NormalizeByParts(key: string, parts: seq<string>)
    requires |parts| >= 1 && NoPlus(parts) && Lower(key) == Join(parts)
    ensures Normalize(key) == Join(SortModifiers(Modifiers(parts)) + [MainKey(parts)])
  {
    SplitJoin(parts);
  }

  lemma JoinThree(a: string, b: string, c: string)
    ensures Join([a, b, c]) == a + "+" + b + "+" + c
  {
    assert [a, b, c][..2] == [a, b] && [a, b][..1] == [a];
    assert Join([a, b]) == a + "+" + b;
  }

  lemma CtrlShiftS()
    ensures "ctrl" + "+" + "shift" + "+" + "s" == "ctrl+shift+s"
  {
  }

  /** Two modifiers followed by a main key. */
  lemma PartsOfCombination(a: string, b: string, c: string)
    requires IsModifier(a) && IsModifier(b) && !IsModifier(c)
    ensures Modifiers([a, b, c]) == [a, b] && MainKey([a, b, c]) == c
  {
    ModifiersAppend([], a);
    assert [] + [a] == [a];
    ModifiersAppend([a], b);
    assert [a] + [b] == [a, b];
    ModifiersAppend([a, b], c);
    assert [a, b] + [c] == [a, b, c];
  }

  lemma ModifiersAppend(parts: seq<string>, x: string)
    ensures Modifiers(parts + [x]) == Modifiers(parts) + (if IsModifier(x) then [x] else [])
  {
    assert (parts + [x])[..|parts|] == parts;
  }

  lemma SortShiftCtrl()
    ensures SortModifiers(["shift", "ctrl"]) == ["ctrl", "shift"]
  {
    var m := multiset(["shift", "ctrl"]);
    assert m == multiset{"shift", "ctrl"};
    assert "alt" != "shift" && "alt" != "ctrl" && "meta" != "shift" && "meta" != "ctrl" && "shift" != "ctrl";
    assert m["alt"] == 0 && m["ctrl"] == 1 && m["meta"] == 0 && m["shift"] == 1;
    assert Copies("alt", 0) == [] && Copies("meta", 0) == [];
    assert Copies("ctrl", 1) == ["ctrl"] && Copies("shift", 1) == ["shift"];
  }

  lemma ShiftCtrlParts()
    ensures Lower("Shift+Ctrl+S") == Join(["shift", "ctrl", "s"])
  {
    JoinThree("shift", "ctrl", "s");
    assert "shift" + "+" + "ctrl" + "+" + "s" == "shift+ctrl+s";
    assert Lower("Shift+Ctrl+S") == "shift+ctrl+s";
  }

  lemma ShiftCtrlSorted()
    ensures var parts := ["shift", "ctrl", "s"];
      SortModifiers(Modifiers(parts)) + [MainKey(parts)] == ["ctrl", "shift", "s"]
  {
    PartsOfCombination("shift", "ctrl", "s");
    SortShiftCtrl();
  }

  lemma CtrlShiftSJoined()
    ensures Join(["ctrl", "shift", "s"]) == "ctrl+shift+s"
  {
    JoinThree("ctrl", "shift", "s");
    CtrlShiftS();
  }

  lemma ShiftCtrlExample()
    ensures Normalize("Shift+Ctrl+S") == "ctrl+shift+s"
  {
    ShiftCtrlParts();
    NormalizeByParts("Shift+Ctrl+S", ["shift", "ctrl", "s"]);
    ShiftCtrlSorted();
    CtrlShiftSJoined();
  }

  /** The method form of normalizeKey: one pass over the parts collecting
      the modifiers and keeping the last other part. */
  method NormalizeKey(key: string) returns (r: string)
    ensures r == Normalize(key)
  {
    var parts := Split(Lower(key));
    var modifiers: seq<string> := [];
    var mainKey := "";
    for i := 0 to |parts|
      invariant modifiers == Modifiers(parts[..i])
      invariant mainKey == MainKey(parts[..i])
    {
      assert parts[..i + 1][..i] == parts[..i];
      if IsModifier(parts[i]) {
        modifiers := modifiers + [parts[i]];
      } else {
        mainKey := parts[i];
      }
    }
    assert parts[..|parts|] == parts;
    r := Join(SortModifiers(modifiers) + [mainKey]);
  }

  // ---------------------------------------------------------------------
  // Events

  /** The special-key table: only ' ' changes (the arrow entries map to themselves). */
  function SpecialKey(key: string): string
  {
    if key == " " then "space" else key
  }

  /** getKeyFromEvent: the held modifiers (sorted), then the lower-cased key. */
  function KeyFromEvent(e: KeyEvent): string
  {
    var mods := (if e.ctrlKey then ["ctrl"] else []) + (if e.shiftKey then ["shift"] else [])
      + (if e.altKey then ["alt"] else []) + (if e.metaKey then ["meta"] else []);
    Join(SortModifiers(mods) + [SpecialKey(Lower(e.key))])
  }

  /** An event whose key is neither a modifier name nor holds a '+' yields a
      key already in normal form, so it finds the shortcut registered under
      any spelling of the same combination. */
  lemma EventKeyIsNormal(e: KeyEvent)
    requires '+' !in e.key && !IsModifier(SpecialKey(Lower(e.key)))
    ensures Normalize(KeyFromEvent(e)) == KeyFromEvent(e)
  {
    var mods := (if e.ctrlKey then ["ctrl"] else []) + (if e.shiftKey then ["shift"] else [])
      + (if e.altKey then ["alt"] else []) + (if e.metaKey then ["meta"] else []);
    var main := SpecialKey(Lower(e.key));
    LowerNoPlus(e.key);
    LowerIsLower(e.key);
    NormalFormIsFixed(mods, main);
  }

  lemma JoinTwo(a: string, b: string)
    ensures Join([a, b]) == a + "+" + b
  {
    assert [a, b][..1] == [a];
  }

  /** One modifier followed by a main key. */
  lemma PartsOfModifiedKey(a: string, c: string)
    requires IsModifier(a) && !IsModifier(c)
    ensures Modifiers([a, c]) == [a] && MainKey([a, c]) == c
  {
    assert [a, c][..1] == [a] && [a][..0] == [];
    assert Modifiers([a]) == [a];
  }

  lemma SortCtrl()
    ensures SortModifiers(["ctrl"]) == ["ctrl"]
  {
    var m := multiset(["ctrl"]);
    assert m == multiset{"ctrl"};
    assert "alt" != "ctrl" && "meta" != "ctrl" && "shift" != "ctrl";
    assert m["alt"] == 0 && m["ctrl"] == 1 && m["meta"] == 0 && m["shift"] == 0;
    assert Copies("alt", 0) == [] && Copies("meta", 0) == [] && Copies("shift", 0) == [];
    assert Copies("ctrl", 1) == ["ctrl"];
  }

  lemma CtrlSJoined()
    ensures Join(["ctrl", "s"]) == "ctrl+s"
  {
    JoinTwo("ctrl", "s");
    assert "ctrl" + "+" + "s" == "ctrl+s";
  }

  lemma CtrlSEventKey(target: Element)
    ensures KeyFromEvent(KeyEvent("S", true, false, false, false, target)) == Join(["ctrl", "s"])
  {
    SortCtrl();
    assert Lower("S") == "s";
    assert ["ctrl"] + ["s"] == ["ctrl", "s"];
  }

  lemma CtrlSLower()
    ensures Lower("ctrl+s") == Join(["ctrl", "s"])
  {
    CtrlSJoined();
    assert Lower("ctrl+s") == "ctrl+s";
  }

  lemma CtrlSSorted()
    ensures var parts := ["ctrl", "s"];
      SortModifiers(Modifiers(parts)) + [MainKey(parts)] == ["ctrl", "s"]
  {
    PartsOfModifiedKey("ctrl", "s");
    SortCtrl();
  }

  lemma CtrlSNormal()
    ensures Normalize("ctrl+s") == Join(["ctrl", "s"])
  {
    CtrlSLower();
    NormalizeByParts("ctrl+s", ["ctrl", "s"]);
    CtrlSSorted();
  }

  /** Ctrl with 'S' finds the shortcut registered as 'ctrl+s'. */
  lemma CtrlSExample(target: Element)
    ensures KeyFromEvent(KeyEvent("S", true, false, false, false, target)) == Normalize("ctrl+s") == "ctrl+s"
  {
    CtrlSEventKey(target);
    CtrlSNormal();
    CtrlSJoined();
  }

  /** The space bar (key ' ') finds the shortcut registered as 'Space'. */
  lemma SpaceExample(target: Element)
    ensures KeyFromEvent(KeyEvent(" ", false, false, false, false, target)) == Normalize("Space") == "space"
  {
    assert Lower("Space") == "space";
    NormalizePlain("Space");
    assert SortModifiers([]) == [];
    assert Lower(" ") == " ";
  }

  /** isTypingInInput */
  predicate IsTypingInInput(element: Element)
  {
    Lower(element.tagName) in {"input", "textarea", "select"} || element.contentEditable == "true"
  }

  // ---------------------------------------------------------------------
  // The registry

  /** The shortcuts setupDefaultShortcuts registers before its theme loop,
      in order, as (key, description). */
  const FixedBindings: seq<(string, string)> := seq(29, FixedBinding)

  /** Entry i of the fixed bindings. */
  function FixedBinding(i: int): (string, string)
  {
    match i
    case 0 => ("Space", "Toggle Play/Pause")
    case 1 => ("ArrowLeft", "Previous Track")
    case 2 => ("ArrowRight", "Next Track")
    case 3 => ("ArrowUp", "Volume Up")
    case 4 => ("ArrowDown", "Volume Down")
    case 5 => ("v", "Cycle Visualization Style")
    case 6 => ("t", "Cycle Theme")
    case 7 => ("b", "Toggle Bar Style")
    case 8 => ("e", "Toggle Effects")
    case 9 => ("g", "Toggle Grid")
    case 10 => ("p", "Toggle Peaks")
    case 11 => ("s", "Toggle Shake Mode")
    case 12 => ("z", "Toggle Beat Zoom")
    case 13 => ("f", "Toggle Fullscreen")
    case 14 => ("ctrl+s", "Take Screenshot")
    case 15 => ("3", "Switch to 3D Mode")
    case 16 => ("2", "Switch to 2D Mode")
    case 17 => ("c", "Toggle 3D Camera Dance")
    case 18 => ("shift+p", "Toggle Particle Burst")
    case 19 => ("shift+t", "Toggle Particle Trails")
    case 20 => ("shift+f", "Toggle Fireworks")
    case 21 => ("ctrl+r", "Reset EQ")
    case 22 => ("ctrl+e", "Toggle EQ")
    case 23 => ("ctrl+o", "Open File")
    case 24 => ("ctrl+u", "Load URL")
    case 25 => ("m", "Toggle Microphone")
    case 26 => ("l", "Toggle Low Power Mode")
    case 27 => ("h", "Show Help")
    case _ => ("?", "Show Help")
  }

  /** i.toString() for a single digit. */
  function Digit(i: int): (r: string)
    requires 0 <= i <= 9
    ensures |r| == 1 && '0' <= r[0] <= '9'
  {
    [('0' as int + i) as char]
  }

  /** The theme loop: keys '1'..'9', each selecting its theme. */
  const ThemeBindings: seq<(string, string)> := Themes(9)

  /** The first n rounds of the theme loop. */
  function Themes(n: int): (t: seq<(string, string)>)
    requires 0 <= n <= 9
    ensures |t| == n
  {
    if n == 0 then [] else Themes(n - 1) + [(Digit(n), "Select Theme " + Digit(n))]
  }

  const DefaultBindings: seq<(string, string)> := FixedBindings + ThemeBindings

  /** addShortcut applied to each binding in turn, starting from an empty map. */
  function Registry(bindings: seq<(string, string)>): map<string, Shortcut>
  {
    if |bindings| == 0 then map[]
    else
      var (key, description) := bindings[|bindings| - 1];
      Registry(bindings[..|bindings| - 1])[Normalize(key) := Shortcut(Normalize(key), description)]
  }

  /** A key is registered exactly when some binding normalizes to it. */
  lemma {:induction false} RegistryKeys(bindings: seq<(string, string)>, k: string)
    ensures k in Registry(bindings) <==> exists j :: 0 <= j < |bindings| && Normalize(bindings[j].0) == k
    decreases |bindings|
  {
    if |bindings| > 0 {
      var init := bindings[..|bindings| - 1];
      RegistryKeys(init, k);
      if k in Registry(init) {
        var j :| 0 <= j < |init| && Normalize(init[j].0) == k;
        assert bindings[j] == init[j];
      }
      if exists j :: 0 <= j < |bindings| && Normalize(bindings[j].0) == k {
        var j :| 0 <= j < |bindings| && Normalize(bindings[j].0) == k;
        if j < |bindings| - 1 {
          assert init[j] == bindings[j];
        }
      }
    }
  }

  /** A registered key holds its last binding: later bindings overwrite. */
  lemma {:induction false} RegistryLastWins(bindings: seq<(string, string)>, j: int)
    requires 0 <= j < |bindings|
    requires forall l :: j < l < |bindings| ==> Normalize(bindings[l].0) != Normalize(bindings[j].0)
    ensures Normalize(bindings[j].0) in Registry(bindings)
    ensures Registry(bindings)[Normalize(bindings[j].0)] == Shortcut(Normalize(bindings[j].0), bindings[j].1)
    decreases |bindings|
  {
    if j < |bindings| - 1 {
      var init := bindings[..|bindings| - 1];
      assert init[j] == bindings[j];
      RegistryLastWins(init, j);
    }
  }

  /** Bindings registered earlier do not matter for a key a later list sets. */
  lemma {:induction false} RegistryLaterList(a: seq<(string, string)>, c: seq<(string, string)>, k: string)
    requires k in Registry(c)
    ensures k in Registry(a + c) && Registry(a + c)[k] == Registry(c)[k]
    decreases |c|
  {
    var init := c[..|c| - 1];
    assert (a + c)[..|a + c| - 1] == a + init;
    if k != Normalize(c[|c| - 1].0) {
      RegistryLaterList(a, init, k);
    }
  }

  /** A digit key is its own normal form. */
  lemma DigitIsNormal(i: int)
    requires 0 <= i <= 9
    ensures Normalize(Digit(i)) == Digit(i)
  {
    var d := Digit(i);
    assert Lower(d) == d;
    NormalizePlain(d);
  }

  /** After n rounds of the theme loop each digit key 1..n selects its own theme. */
  lemma {:induction false} ThemeRegistry(n: int, i: int)
    requires 1 <= i <= n <= 9
    ensures Digit(i) in Registry(Themes(n))
    ensures Registry(Themes(n))[Digit(i)] == Shortcut(Digit(i), "Select Theme " + Digit(i))
  {
    var d := Digit(n);
    assert Themes(n) == Themes(n - 1) + [(d, "Select Theme " + d)];
    DigitIsNormal(n);
    if i < n {
      ThemeRegistry(n - 1, i);
      DigitsDiffer(i, n);
      RegistryKeepsOther(Themes(n - 1), d, "Select Theme " + d, Digit(i));
    } else {
      RegistryNewest(Themes(n - 1), d, "Select Theme " + d);
    }
  }

  lemma DigitsDiffer(i: int, j: int)
    requires 0 <= i < j <= 9
    ensures Digit(i) != Digit(j)
  {
    assert Digit(i)[0] != Digit(j)[0];
  }

  /** The key just added holds the new entry. */
  lemma RegistryNewest(bindings: seq<(string, string)>, key: string, description: string)
    requires Normalize(key) == key
    ensures key in Registry(bindings + [(key, description)])
    ensures Registry(bindings + [(key, description)])[key] == Shortcut(key, description)
  {
    assert (bindings + [(key, description)])[..|bindings|] == bindings;
  }

  /** Adding a binding leaves every other registered key alone. */
  lemma RegistryKeepsOther(bindings: seq<(string, string)>, key: string, description: string, k: string)
    requires Normalize(key) == key && k != key && k in Registry(bindings)
    ensures k in Registry(bindings + [(key, description)])
    ensures Registry(bindings + [(key, description)])[k] == Registry(bindings)[k]
  {
    assert (bindings + [(key, description)])[..|bindings|] == bindings;
  }

  /** The theme loop runs after every other registration, so whatever the
      earlier bindings held under a digit key, that key ends up selecting its
      theme. */
  lemma ThemesOverrideEarlier(earlier: seq<(string, string)>, i: int)
    requires 1 <= i <= 9
    ensures Digit(i) in Registry(earlier + ThemeBindings)
    ensures Registry(earlier + ThemeBindings)[Digit(i)] == Shortcut(Digit(i), "Select Theme " + Digit(i))
  {
    ThemeRegistry(9, i);
    RegistryLaterList(earlier, ThemeBindings, Digit(i));
  }

  /** In particular '2' and '3', which the earlier bindings use to switch
      between 2D and 3D modes, select themes 2 and 3. */
  lemma ThemeKeysOverrideModeKeys(earlier: seq<(string, string)>)
    ensures "2" in Registry(earlier + ThemeBindings)
    ensures Registry(earlier + ThemeBindings)["2"] == Shortcut("2", "Select Theme 2")
    ensures "3" in Registry(earlier + ThemeBindings)
    ensures Registry(earlier + ThemeBindings)["3"] == Shortcut("3", "Select Theme 3")
  {
    ThemesOverrideEarlier(earlier, 2);
    ThemesOverrideEarlier(earlier, 3);
    ThemeLabels();
  }

  lemma ThemeLabels()
    ensures Digit(2) == "2" && "Select Theme " + Digit(2) == "Select Theme 2"
    ensures Digit(3) == "3" && "Select Theme " + Digit(3) == "Select Theme 3"
  {
    assert Digit(2) == "2" && Digit(3) == "3";
  }

  /** Among the earlier bindings, '3' and '2' switch between 3D and 2D modes. */
  lemma FixedBindingsSwitchModes()
    ensures FixedBindings[15] == ("3", "Switch to 3D Mode")
    ensures FixedBindings[16] == ("2", "Switch to 2D Mode")
  {
  }

  /** setupDefaultShortcuts: one addShortcut per binding, in order, each
      stored under the normal form of its key. */
  method RegisterAll(bindings: seq<(string, string)>) returns (registry: map<string, Shortcut>)
    ensures registry == Registry(bindings)
    ensures forall k | k in registry :: registry[k].key == k && Normalize(k) == k
  {
    registry := map[];
    for i := 0 to |bindings|
      invariant registry == Registry(bindings[..i])
      invariant forall k | k in registry :: registry[k].key == k && Normalize(k) == k
    {
      assert bindings[..i + 1][..i] == bindings[..i];
      var key := NormalizeKey(bindings[i].0);
      NormalizeIdempotent(bindings[i].0);
      registry := registry[key := Shortcut(key, bindings[i].1)];
    }
    assert bindings[..|bindings|] == bindings;
  }

  class Shortcuts {
    var shortcuts: map<string, Shortcut>
    var isEnabled: bool
    var ctrl: bool
    var shift: bool
    var alt: bool
    var meta: bool
    /** The shortcuts whose callbacks ran, oldest first. */
    var fired: seq<Shortcut>

    /** Every entry is stored under its own normal form. */
    ghost predicate Valid()
      reads this
    {
      forall k | k in shortcuts :: shortcuts[k].key == k && Normalize(k) == k
    }

    /** init: enabled, no modifier held, and setupDefaultShortcuts run over
        `bindings` (DefaultBindings in the application). */
    constructor(bindings: seq<(string, string)>)
      ensures Valid()
      ensures shortcuts == Registry(bindings)
      ensures isEnabled && !ctrl && !shift && !alt && !meta && fired == []
    {
      var registry := RegisterAll(bindings);
      shortcuts := registry;
      isEnabled := true;
      ctrl, shift, alt, meta := false, false, false, false;
      fired := [];
    }

    /** addShortcut: stored under the normalized key, replacing any earlier entry. */
    method AddShortcut(key: string, description: string)
      requires Valid()
      modifies `shortcuts
      ensures Valid()
      ensures shortcuts == old(shortcuts)[Normalize(key) := Shortcut(Normalize(key), description)]
    {
      var normalized := NormalizeKey(key);
      NormalizeIdempotent(key);
      shortcuts := shortcuts[normalized := Shortcut(normalized, description)];
    }

    /** removeShortcut: only the normalized key goes. */
    method RemoveShortcut(key: string)
      requires Valid()
      modifies `shortcuts
      ensures Valid()
      ensures shortcuts == old(shortcuts) - {Normalize(key)}
    {
      var normalized := NormalizeKey(key);
      shortcuts := shortcuts - {normalized};
    }

    /** What a key-down event would fire: the entry under the event's key. */
    function Lookup(e: KeyEvent): (s: Option<Shortcut>)
      reads `shortcuts
      ensures s.Some? <==> KeyFromEvent(e) in shortcuts
    {
      var key := KeyFromEvent(e);
      if key in shortcuts then Some(shortcuts[key]) else None
    }

    /** The key-down listener: nothing when disabled or typing; otherwise the
        modifier state follows the event and the matching shortcut fires. */
    method KeyDown(e: KeyEvent)
      modifies `ctrl, `shift, `alt, `meta, `fired
      ensures !old(isEnabled) || IsTypingInInput(e.target) ==> unchanged(this)
      ensures old(isEnabled) && !IsTypingInInput(e.target) ==>
        && ctrl == e.ctrlKey && shift == e.shiftKey && alt == e.altKey && meta == e.metaKey
        && fired == old(fired) + (match Lookup(e) case Some(s) => [s] case None => [])
    {
      if !isEnabled {
        return;
      }
      if IsTypingInInput(e.target) {
        return;
      }
      var shortcut := Lookup(e);
      UpdateModifierKeys(e);
      if shortcut.Some? {
        fired := fired + [shortcut.value];
      }
    }

    /** The key-up listener. */
    method KeyUp(e: KeyEvent)
      modifies `ctrl, `shift, `alt, `meta
      ensures ctrl == e.ctrlKey && shift == e.shiftKey && alt == e.altKey && meta == e.metaKey
    {
      UpdateModifierKeys(e);
    }

    method UpdateModifierKeys(e: KeyEvent)
      modifies `ctrl, `shift, `alt, `meta
      ensures ctrl == e.ctrlKey && shift == e.shiftKey && alt == e.altKey && meta == e.metaKey
    {
      ctrl, shift, alt, meta := e.ctrlKey, e.shiftKey, e.altKey, e.metaKey;
    }

    method Enable()
      modifies `isEnabled
      ensures isEnabled
    {
      isEnabled := true;
    }

    method Disable()
      modifies `isEnabled
      ensures !isEnabled
    {
      isEnabled := false;
    }

    /** destroy: the registry is emptied. */
    method Destroy()
      modifies `shortcuts
      ensures Valid() && shortcuts == map[]
    {
      shortcuts := map[];
    }
  }
}
