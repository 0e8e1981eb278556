/**
 * The top-level page component: whether the admin dashboard is shown
 * (from the location, from browser navigation, or from typing the secret
 * word), the sliding window of recent key presses, and the section of the
 * page the navigation highlights while scrolling.
 */
module AppShell {
  import opened Wrappers
  import opened JsText

  /** `secretSequence`: the keys of the word that opens the dashboard. */
  const SecretKeys: seq<string> := ["r", "a", "j", "a"]
  /** `secretSequence.length`: how many recent keys are kept. */
  const KeyWindow := 4
  /** The sections the scroll handler looks at, in the order it tries them. */
  const Sections: seq<string> := ["about", "skills", "experience", "projects", "certifications", "contact"]
  const InitialSection := "home"
  /** How far below the top of the viewport a section must start to count. */
  const ScrollOffset := 100.0

  /** The location shows the dashboard: path exactly `/admin` or hash exactly `#admin`. */
  predicate IsAdminPath(pathname: string, hash: string) {
    pathname == "/admin" || hash == "#admin"
  }

  /** The last `n` entries of `s` (all of it when shorter). */
  function LastN<T>(s: seq<T>, n: nat): (r: seq<T>)
    ensures |r| == if |s| > n then n else |s|
  {
    if |s| > n then s[|s| - n..] else s
  }

  lemma LastNOfLastN<T>(s: seq<T>, t: seq<T>, n: nat)
    ensures LastN(LastN(s, n) + t, n) == LastN(s + t, n)
  {
    var u := LastN(s, n);
    assert u == s[|s| - |u|..];
    assert u + t == (s + t)[|s| - |u|..];
  }

  lemma AppendNothing<T>(s: seq<T>, t: seq<T>)
    requires t == []
    ensures s + t == s
  {
  }

  lemma AppendOne<T>(s: seq<T>, x: T, t: seq<T>)
    ensures s + [x] + t == s + ([x] + t)
  {
  }

  /** The keys' lower-case forms, in order. */
  function LowerAll(keys: seq<string>): (r: seq<string>)
    ensures |r| == |keys|
  {
    if keys == [] then [] else [Lower(keys[0])] + LowerAll(keys[1..])
  }

  /** Push the lower-cased key, then keep only the last four. */
  function PushKey(buffer: seq<string>, key: string): (r: seq<string>)
    ensures r == LastN(buffer + [Lower(key)], KeyWindow)
  {
    var pushed := buffer + [Lower(key)];
    if |pushed| > KeyWindow then pushed[|pushed| - KeyWindow..] else pushed
  }

  /** The buffer after a key press and whether it opened the dashboard. */
  datatype KeyOutcome = KeyOutcome(buffer: seq<string>, unlocked: bool)

  /**
   * One handled key press: the dashboard opens exactly when the joined
   * window spells the secret word, and the buffer is then emptied.
   */
  function KeyStep(buffer: seq<string>, key: string): (o: KeyOutcome)
    ensures o.unlocked <==> Concat(PushKey(buffer, key)) == Concat(SecretKeys)
    ensures o.unlocked ==> o.buffer == []
    ensures !o.unlocked ==> o.buffer == PushKey(buffer, key)
    ensures |o.buffer| <= KeyWindow
  {
    var w := PushKey(buffer, key);
    if Concat(w) == Concat(SecretKeys) then KeyOutcome([], true) else KeyOutcome(w, false)
  }

  /** Several key presses in a row; once the dashboard opens the rest are ignored. */
  function TypeKeys(buffer: seq<string>, keys: seq<string>): (o: KeyOutcome)
    decreases |keys|
  {
    if keys == [] then KeyOutcome(buffer, false)
    else
      var o := KeyStep(buffer, keys[0]);
      if o.unlocked then o else TypeKeys(o.buffer, keys[1..])
  }

  /** The buffer after several key presses, ignoring the secret word. */
  function PushAll(buffer: seq<string>, keys: seq<string>): (r: seq<string>)
    decreases |keys|
  {
    if keys == [] then buffer else PushAll(PushKey(buffer, keys[0]), keys[1..])
  }

  /** Pushing keys one at a time keeps the last four lower-cased keys, in order. */
  lemma {:induction false} PushAllWindow(buffer: seq<string>, keys: seq<string>)
    requires |buffer| <= KeyWindow
    ensures PushAll(buffer, keys) == LastN(buffer + LowerAll(keys), KeyWindow)
    decreases |keys|
  {
    if keys == [] {
      AppendNothing(buffer, LowerAll(keys));
    } else {
      var pushed := buffer + [Lower(keys[0])];
      PushAllWindow(LastN(pushed, KeyWindow), keys[1..]);
      LastNOfLastN(pushed, LowerAll(keys[1..]), KeyWindow);
      AppendOne(buffer, Lower(keys[0]), LowerAll(keys[1..]));
    }
  }

  /** While the dashboard stays closed, typing is just pushing. */
  lemma {:induction false} LockedRunPushes(buffer: seq<string>, keys: seq<string>)
    requires !TypeKeys(buffer, keys).unlocked
    ensures TypeKeys(buffer, keys).buffer == PushAll(buffer, keys)
    decreases |keys|
  {
    if keys != [] {
      LockedRunPushes(KeyStep(buffer, keys[0]).buffer, keys[1..]);
    }
  }

  /**
   * As long as the dashboard stays closed, the buffer holds the most
   * recent lower-cased keys, at most four, in the order they arrived.
   */
  lemma BufferHoldsRecentKeys(buffer: seq<string>, keys: seq<string>)
    requires |buffer| <= KeyWindow
    requires !TypeKeys(buffer, keys).unlocked
    ensures TypeKeys(buffer, keys).buffer == LastN(buffer + LowerAll(keys), KeyWindow)
  {
    LockedRunPushes(buffer, keys);
    PushAllWindow(buffer, keys);
  }

  /** `secretSequence.join('')` is the word "raja". */
  lemma SecretWord()
    ensures Concat(SecretKeys) == "raja"
  {
    ConcatAppend([], "r");
    ConcatAppend(["r"], "a");
    ConcatAppend(["r", "a"], "j");
    ConcatAppend(["r", "a", "j"], "a");
    assert ["r", "a", "j"] + ["a"] == SecretKeys;
  }

  /** A pushed window ends with the pushed key, after the previous last key. */
  lemma PushKeyEnds(buffer: seq<string>, key: string)
    ensures var w := PushKey(buffer, key);
      && w != [] && w[|w| - 1] == Lower(key)
      && (buffer != [] ==> |w| >= 2 && w[|w| - 2] == buffer[|buffer| - 1])
  {
  }

  /** A joined window whose last key is `c` (not `a`) does not spell the word. */
  lemma EndsWithOther(w: seq<string>, c: char)
    requires w != [] && w[|w| - 1] == [c] && c != 'a'
    ensures Concat(w) != Concat(SecretKeys)
  {
    SecretWord();
    var x := Concat(w);
    assert x == Concat(w[..|w| - 1]) + [c];
    assert x[|x| - 1] == c;
    assert "raja"[3] == 'a';
  }

  /** A joined window ending with the keys `r`, `a` does not spell the word. */
  lemma EndsWithRA(w: seq<string>)
    requires |w| >= 2 && w[|w| - 2] == "r" && w[|w| - 1] == "a"
    ensures Concat(w) != Concat(SecretKeys)
  {
    SecretWord();
    var v := w[..|w| - 1];
    assert Concat(w) == Concat(v) + "a";
    assert v[|v| - 1] == "r";
    assert Concat(v) == Concat(v[..|v| - 1]) + "r";
    var u := Concat(v[..|v| - 1]);
    var x := Concat(w);
    assert x == u + "r" + "a";
    assert x[|x| - 2] == 'r';
    assert "raja"[2] == 'j';
  }

  /** Sliding four items, one at a time, through a window of four. */
  lemma SlideFour<T>(buffer: seq<T>, a: T, b: T, c: T, d: T)
    ensures LastN(LastN(buffer + [a], KeyWindow) + [b], KeyWindow) == LastN(buffer + [a, b], KeyWindow)
    ensures LastN(LastN(buffer + [a, b], KeyWindow) + [c], KeyWindow) == LastN(buffer + [a, b, c], KeyWindow)
    ensures LastN(LastN(buffer + [a, b, c], KeyWindow) + [d], KeyWindow) == [a, b, c, d]
  {
    LastNOfLastN(buffer + [a], [b], KeyWindow);
    assert buffer + [a] + [b] == buffer + [a, b];
    LastNOfLastN(buffer + [a, b], [c], KeyWindow);
    assert buffer + [a, b] + [c] == buffer + [a, b, c];
    LastNOfLastN(buffer + [a, b, c], [d], KeyWindow);
    assert buffer + [a, b, c] + [d] == buffer + [a, b, c, d];
  }

  /** The windows while typing the secret word after `buffer`. */
  lemma SecretWindows(buffer: seq<string>, k1: string, k2: string, k3: string, k4: string)
    requires Lower(k1) == "r" && Lower(k2) == "a" && Lower(k3) == "j" && Lower(k4) == "a"
    ensures PushKey(buffer, k1) == LastN(buffer + ["r"], KeyWindow)
    ensures PushKey(PushKey(buffer, k1), k2) == LastN(buffer + ["r", "a"], KeyWindow)
    ensures PushKey(PushKey(PushKey(buffer, k1), k2), k3) == LastN(buffer + ["r", "a", "j"], KeyWindow)
    ensures PushKey(PushKey(PushKey(PushKey(buffer, k1), k2), k3), k4) == SecretKeys
  {
    SlideFour(buffer, "r", "a", "j", "a");
  }

  lemma StaysLocked(buffer: seq<string>, key: string)
    requires Concat(PushKey(buffer, key)) != Concat(SecretKeys)
    ensures KeyStep(buffer, key) == KeyOutcome(PushKey(buffer, key), false)
  {
  }

  /** Four presses in a row, none of the first three opening the dashboard. */
  lemma TypeFourKeys(buffer: seq<string>, k1: string, k2: string, k3: string, k4: string)
    requires !KeyStep(buffer, k1).unlocked
    requires !KeyStep(KeyStep(buffer, k1).buffer, k2).unlocked
    requires !KeyStep(KeyStep(KeyStep(buffer, k1).buffer, k2).buffer, k3).unlocked
    ensures TypeKeys(buffer, [k1, k2, k3, k4])
         == KeyStep(KeyStep(KeyStep(KeyStep(buffer, k1).buffer, k2).buffer, k3).buffer, k4)
  {
    var o1 := KeyStep(buffer, k1);
    var o2 := KeyStep(o1.buffer, k2);
    var o3 := KeyStep(o2.buffer, k3);
    assert TypeKeys(buffer, [k1, k2, k3, k4]) == TypeKeys(o1.buffer, [k2, k3, k4]) by {
      assert [k1, k2, k3, k4][1..] == [k2, k3, k4];
    }
    assert TypeKeys(o1.buffer, [k2, k3, k4]) == TypeKeys(o2.buffer, [k3, k4]) by {
      assert [k2, k3, k4][1..] == [k3, k4];
    }
    assert TypeKeys(o2.buffer, [k3, k4]) == TypeKeys(o3.buffer, [k4]) by {
      assert [k3, k4][1..] == [k4];
    }
    assert TypeKeys(o3.buffer, [k4]) == KeyStep(o3.buffer, k4) by {
      assert [k4][1..] == [];
    }
  }

  /**
   * Typing the four letters of the secret word, in either case, opens the
   * dashboard on the fourth key whatever was typed before, and not earlier.
   */
  lemma SecretOpensDashboard(buffer: seq<string>, k1: string, k2: string, k3: string, k4: string)
    requires Lower(k1) == "r" && Lower(k2) == "a" && Lower(k3) == "j" && Lower(k4) == "a"
    ensures !KeyStep(buffer, k1).unlocked
    ensures !KeyStep(KeyStep(buffer, k1).buffer, k2).unlocked
    ensures !KeyStep(KeyStep(KeyStep(buffer, k1).buffer, k2).buffer, k3).unlocked
    ensures TypeKeys(buffer, [k1, k2, k3, k4]).unlocked
  {
    SecretWindows(buffer, k1, k2, k3, k4);
    SecretWord();
    var w1 := PushKey(buffer, k1);
    EndsWithOther(w1, 'r');
    StaysLocked(buffer, k1);
    var w2 := PushKey(w1, k2);
    EndsWithRA(w2);
    StaysLocked(w1, k2);
    var w3 := PushKey(w2, k3);
    EndsWithOther(w3, 'j');
    StaysLocked(w2, k3);
    TypeFourKeys(buffer, k1, k2, k3, k4);
  }

  /** The `offsetTop` and `offsetHeight` of a section element, in pixels. */
  datatype Box = Box(offsetTop: int, offsetHeight: int)

  /** The section numbered `k` exists on the page and its box contains `pos`. */
  predicate HitsAt(layout: string -> Option<Box>, pos: real, k: nat)
    requires k < |Sections|
  {
    var b := layout(Sections[k]);
    b.Some? && b.value.offsetTop as real <= pos < (b.value.offsetTop + b.value.offsetHeight) as real
  }

  /** The first section, from the `k`-th on, whose box contains `pos`. */
  function FirstHit(layout: string -> Option<Box>, pos: real, k: nat): (r: Option<nat>)
    requires k <= |Sections|
    ensures r.Some? ==> k <= r.value < |Sections| && HitsAt(layout, pos, r.value)
    ensures r.Some? ==> forall j :: k <= j < r.value ==> !HitsAt(layout, pos, j)
    ensures r.None? ==> forall j :: k <= j < |Sections| ==> !HitsAt(layout, pos, j)
    decreases |Sections| - k
  {
    if k == |Sections| then None
    else if HitsAt(layout, pos, k) then Some(k)
    else FirstHit(layout, pos, k + 1)
  }

  /**
   * The section highlighted after a scroll to `scrollY`: the first section
   * in page order whose box contains the point 100 pixels below the top of
   * the viewport; when none does, the highlight stays where it was.
   */
  function SectionAt(layout: string -> Option<Box>, scrollY: real, current: string): string {
    match FirstHit(layout, scrollY + ScrollOffset, 0)
    case Some(k) => Sections[k]
    case None => current
  }

  /** No two present sections overlap, as when they are stacked down the page. */
  predicate Disjoint(layout: string -> Option<Box>) {
    forall j, k :: 0 <= j < k < |Sections| && layout(Sections[j]).Some? && layout(Sections[k]).Some? ==>
      var a, b := layout(Sections[j]).value, layout(Sections[k]).value;
      a.offsetTop + a.offsetHeight <= b.offsetTop || b.offsetTop + b.offsetHeight <= a.offsetTop
  }

  /**
   * With non-overlapping sections, the highlighted section is the one whose
   * box contains the probe point, whichever it is.
   */
  lemma DisjointPicksContaining(layout: string -> Option<Box>, scrollY: real, current: string, k: nat)
    requires Disjoint(layout)
    requires k < |Sections| && HitsAt(layout, scrollY + ScrollOffset, k)
    ensures SectionAt(layout, scrollY, current) == Sections[k]
  {
    var pos := scrollY + ScrollOffset;
    var r := FirstHit(layout, pos, 0);
    assert r.Some?;
  }

  /**
   * The page component's state: the location, whether the dashboard is
   * shown, the highlighted section and the window of recent keys.
   */
  class App {
    var pathname: string
    var hash: string
    var showAdmin: bool
    var activeSection: string
    var keySequence: seq<string>

    /**
     * At most four keys are buffered and they never spell the word; the
     * buffer is empty while the dashboard is shown; the dashboard is shown
     * exactly when the location is the admin path; the highlight is the
     * initial one or a section of the page.
     */
    predicate Valid()
      reads this
    {
      && |keySequence| <= KeyWindow
      && Concat(keySequence) != Concat(SecretKeys)
      && (showAdmin ==> keySequence == [])
      && showAdmin == IsAdminPath(pathname, hash)
      && (activeSection == InitialSection || activeSection in Sections)
    }

    /** Mounting: the dashboard is shown iff the location is the admin path. */
    constructor(pathname: string, hash: string)
      ensures Valid()
      ensures this.pathname == pathname && this.hash == hash
      ensures showAdmin == IsAdminPath(pathname, hash)
      ensures activeSection == InitialSection && keySequence == []
    {
      this.pathname := pathname;
      this.hash := hash;
      showAdmin := IsAdminPath(pathname, hash);
      activeSection := InitialSection;
      keySequence := [];
      SecretWord();
    }

    /**
     * `popstate`: the browser moved to another location; the dashboard is
     * shown iff it is the admin path. When that flips, the key handler is
     * registered afresh with an empty buffer.
     */
    method PopState(pathname: string, hash: string)
      requires Valid()
      modifies this
      ensures Valid()
      ensures this.pathname == pathname && this.hash == hash
      ensures showAdmin == IsAdminPath(pathname, hash)
      ensures keySequence == if showAdmin == old(showAdmin) then old(keySequence) else []
      ensures activeSection == old(activeSection)
    {
      SecretWord();
      this.pathname := pathname;
      this.hash := hash;
      var admin := IsAdminPath(pathname, hash);
      if admin != showAdmin {
        keySequence := [];
      }
      showAdmin := admin;
    }

    /**
     * `keypress`: ignored while the dashboard is shown; otherwise the key
     * goes through the window, and spelling the word shows the dashboard
     * and sets the location hash to `#admin`.
     */
    method HandleKeyPress(key: string)
      requires Valid()
      modifies this
      ensures Valid()
      ensures old(showAdmin) ==> showAdmin && keySequence == old(keySequence) && hash == old(hash)
      ensures !old(showAdmin) ==>
        var o := KeyStep(old(keySequence), key);
        && keySequence == o.buffer
        && showAdmin == o.unlocked
        && hash == (if o.unlocked then "#admin" else old(hash))
      ensures pathname == old(pathname) && activeSection == old(activeSection)
    {
      if showAdmin {
        return;
      }
      var o := KeyStep(keySequence, key);
      keySequence := o.buffer;
      if o.unlocked {
        showAdmin := true;
        hash := "#admin";
      }
    }

    /**
     * `scroll`: no handler is registered while the dashboard is shown;
     * otherwise the sections are tried in page order and the first whose
     * box contains the probe point is highlighted.
     */
    method HandleScroll(scrollY: real, layout: string -> Option<Box>)
      requires Valid()
      modifies this
      ensures Valid()
      ensures activeSection == if old(showAdmin) then old(activeSection) else SectionAt(layout, scrollY, old(activeSection))
      ensures showAdmin == old(showAdmin) && keySequence == old(keySequence)
      ensures pathname == old(pathname) && hash == old(hash)
    {
      if showAdmin {
        return;
      }
      var scrollPosition := scrollY + ScrollOffset;
      var i := 0;
      while i < |Sections|
        invariant 0 <= i <= |Sections|
        invariant forall j :: 0 <= j < i ==> !HitsAt(layout, scrollPosition, j)
        invariant activeSection == old(activeSection)
      {
        var element := layout(Sections[i]);
        if element.Some? {
          var top, height := element.value.offsetTop, element.value.offsetHeight;
          if scrollPosition >= top as real && scrollPosition < (top + height) as real {
            activeSection := Sections[i];
            assert HitsAt(layout, scrollPosition, i);
            break;
          }
        }
        i := i + 1;
      }
    }
  }
}
