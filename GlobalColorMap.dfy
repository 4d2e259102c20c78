/*
 * The process-wide palette selector: a singleton holding the active palette,
 * created on first access with Jet, read by GetGlobalColorMap and replaced by
 * SetGlobalColorMap, which sends every option it does not recognise to Jet.
 *
 * The first half states the selector as a state machine over a history of
 * calls; the second half is the singleton itself, as objects whose methods
 * keep their state equal to that state machine run over the calls so far.
 */
module GlobalColorMap {
  import opened ColorMap

  /**
   * The option passed to SetGlobalColorMap. A C++ enum can hold values other
   * than its named enumerators; `OptionOther` stands for any such value.
   */
  datatype ColorMapOption =
    | OptionGray
    | OptionJet
    | OptionSummer
    | OptionWinter
    | OptionOther(code: int)

  /** The named option of each palette. */
  function OptionFor(p: Palette): (o: ColorMapOption)
  {
    match p
    case Gray => OptionGray
    case Jet => OptionJet
    case Summer => OptionSummer
    case Winter => OptionWinter
  }

  /** The palette SetGlobalColorMap installs for an option. */
  function SelectedPalette(option: ColorMapOption): (p: Palette)
    ensures option == OptionFor(p) || (option.OptionOther? && p == Jet)
    ensures p == Jet <==> option == OptionJet || option.OptionOther?
  {
    match option
    case OptionGray => Gray
    case OptionSummer => Summer
    case OptionWinter => Winter
    case OptionJet => Jet
    case OptionOther(_) => Jet
  }

  /** Selecting the named option of a palette installs that palette. */
  lemma SelectNamedOption(p: Palette)
    ensures SelectedPalette(OptionFor(p)) == p
  {
  }

  // ---------------------------------------------------------------------------
  // The selector as a state machine over the calls made to it

  datatype Call = SetCall(option: ColorMapOption) | GetCall

  /** The held palette after one call. */
  function Step(s: Palette, c: Call): Palette
  {
    match c
    case SetCall(option) => SelectedPalette(option)
    case GetCall => s
  }

  /** The held palette after running `calls` from `s`, first call first. */
  function Run(s: Palette, calls: seq<Call>): Palette
    decreases |calls|
  {
    if calls == [] then s else Run(Step(s, calls[0]), calls[1..])
  }

  /** What the Get calls among `calls`, run from `s`, return, in order. */
  function GetReplies(s: Palette, calls: seq<Call>): seq<Palette>
    decreases |calls|
  {
    if calls == [] then []
    else if calls[0].GetCall? then [s] + GetReplies(s, calls[1..])
    else GetReplies(Step(s, calls[0]), calls[1..])
  }

  /**
   * An independent account of the held palette: scanning back from the last
   * call, the palette selected by the most recent Set, or `initial` if
   * there is none.
   */
  function LastSet(initial: Palette, calls: seq<Call>): Palette
    decreases |calls|
  {
    if calls == [] then initial
    else match calls[|calls| - 1]
      case SetCall(option) => SelectedPalette(option)
      case GetCall => LastSet(initial, calls[..|calls| - 1])
  }

  /** No call in `calls` is a Set. */
  predicate NoSet(calls: seq<Call>)
  {
    forall i :: 0 <= i < |calls| ==> calls[i].GetCall?
  }

  /** Running one call is one step, and only a Get replies. */
  lemma RunOne(s: Palette, c: Call)
    ensures Run(s, [c]) == Step(s, c)
    ensures GetReplies(s, [c]) == if c.GetCall? then [s] else []
  {
    assert [c][1..] == [];
  }

  /** Running `a + b` is running `a`, then `b` from where `a` left off. */
  lemma {:induction false} RunAppend(s: Palette, a: seq<Call>, b: seq<Call>)
    ensures Run(s, a + b) == Run(Run(s, a), b)
    ensures GetReplies(s, a + b) == GetReplies(s, a) + GetReplies(Run(s, a), b)
    decreases |a|
  {
    if a == [] {
      assert a + b == b;
    } else {
      assert (a + b)[0] == a[0];
      assert (a + b)[1..] == a[1..] + b;
      RunAppend(Step(s, a[0]), a[1..], b);
    }
  }

  /** The held palette is the one the most recent Set selected. */
  lemma {:induction false} RunIsLastSet(s: Palette, calls: seq<Call>)
    ensures Run(s, calls) == LastSet(s, calls)
    decreases |calls|
  {
    if calls != [] {
      var init, last := calls[..|calls| - 1], calls[|calls| - 1];
      assert calls == init + [last];
      RunAppend(s, init, [last]);
      RunOne(Run(s, init), last);
      RunIsLastSet(s, init);
    }
  }

  /** Calls without a Set leave the palette alone, and every Get returns it. */
  lemma {:induction false} NoSetKeepsState(s: Palette, calls: seq<Call>)
    requires NoSet(calls)
    ensures Run(s, calls) == s
    ensures GetReplies(s, calls) == seq(|calls|, i => s)
    decreases |calls|
  {
    if calls != [] {
      NoSetKeepsState(s, calls[1..]);
      assert [s] + seq(|calls| - 1, i => s) == seq(|calls|, i => s);
    }
  }

  /**
   * Before the first Set, a process (whose selector starts as Jet) sees Jet
   * on every Get.
   */
  lemma DefaultBeforeFirstSet(calls: seq<Call>, k: nat)
    requires k < |calls| && NoSet(calls[..k + 1])
    ensures |GetReplies(Jet, calls)| > k && GetReplies(Jet, calls)[k] == Jet
  {
    assert calls == calls[..k + 1] + calls[k + 1..];
    RunAppend(Jet, calls[..k + 1], calls[k + 1..]);
    NoSetKeepsState(Jet, calls[..k + 1]);
  }

  /** A Get straight after a Set returns the palette that Set selected. */
  lemma SetThenGet(s: Palette, pre: seq<Call>, option: ColorMapOption, post: seq<Call>)
    ensures Run(s, pre + [SetCall(option), GetCall]) == SelectedPalette(option)
    ensures GetReplies(s, pre + [SetCall(option), GetCall] + post)
         == GetReplies(s, pre) + [SelectedPalette(option)] + GetReplies(SelectedPalette(option), post)
  {
    var p := SelectedPalette(option);
    var pair := [SetCall(option), GetCall];
    assert pair == [SetCall(option)] + [GetCall];
    RunOne(Run(s, pre), SetCall(option));
    RunOne(p, GetCall);
    RunAppend(Run(s, pre), [SetCall(option)], [GetCall]);
    RunAppend(s, pre, pair);
    RunAppend(s, pre + pair, post);
  }

  /**
   * Two Gets with only Gets between them return the same palette: the one
   * held after `pre`.
   */
  lemma GetsAgree(s: Palette, pre: seq<Call>, mid: seq<Call>, post: seq<Call>)
    requires NoSet(mid)
    ensures var replies := GetReplies(s, pre + [GetCall] + mid + [GetCall] + post);
            var n := |GetReplies(s, pre)|;
            |replies| > n + |mid| + 1
            && replies[n] == Run(s, pre)
            && replies[n + |mid| + 1] == Run(s, pre)
  {
    var t := Run(s, pre);
    var block := [GetCall] + mid + [GetCall];
    assert NoSet(block) by {
      forall i | 0 <= i < |block| ensures block[i].GetCall? {
        if 0 < i < |block| - 1 { assert block[i] == mid[i - 1]; }
      }
    }
    assert pre + [GetCall] + mid + [GetCall] + post == pre + (block + post);
    RunAppend(s, pre, block + post);
    RunAppend(t, block, post);
    NoSetKeepsState(t, block);
  }

  /** Replacing one call by another that acts the same keeps the whole behaviour. */
  lemma {:induction false} ReplaceEquivalent(s: Palette, pre: seq<Call>, x: seq<Call>, y: seq<Call>, post: seq<Call>)
    requires Run(Run(s, pre), x) == Run(Run(s, pre), y)
    requires GetReplies(Run(s, pre), x) == GetReplies(Run(s, pre), y)
    ensures Run(s, pre + x + post) == Run(s, pre + y + post)
    ensures GetReplies(s, pre + x + post) == GetReplies(s, pre + y + post)
  {
    var t := Run(s, pre);
    RunAppend(s, pre, x);
    RunAppend(s, pre, y);
    RunAppend(s, pre + x, post);
    RunAppend(s, pre + y, post);
  }

  /** Setting an unrecognised option behaves exactly like setting Jet. */
  lemma UnrecognisedIsJet(s: Palette, pre: seq<Call>, code: int, post: seq<Call>)
    ensures Run(s, pre + [SetCall(OptionOther(code))] + post) == Run(s, pre + [SetCall(OptionJet)] + post)
    ensures GetReplies(s, pre + [SetCall(OptionOther(code))] + post)
         == GetReplies(s, pre + [SetCall(OptionJet)] + post)
  {
    RunOne(Run(s, pre), SetCall(OptionOther(code)));
    RunOne(Run(s, pre), SetCall(OptionJet));
    ReplaceEquivalent(s, pre, [SetCall(OptionOther(code))], [SetCall(OptionJet)], post);
  }

  /** Setting the same option twice in a row behaves like setting it once. */
  lemma SetIdempotent(s: Palette, pre: seq<Call>, option: ColorMapOption, post: seq<Call>)
    ensures Run(s, pre + [SetCall(option), SetCall(option)] + post) == Run(s, pre + [SetCall(option)] + post)
    ensures GetReplies(s, pre + [SetCall(option), SetCall(option)] + post)
         == GetReplies(s, pre + [SetCall(option)] + post)
  {
    var t := Run(s, pre);
    var c := SetCall(option);
    assert [c, c] == [c] + [c];
    RunOne(t, c);
    RunOne(Step(t, c), c);
    RunAppend(t, [c], [c]);
    ReplaceEquivalent(s, pre, [c, c], [c], post);
  }

  // ---------------------------------------------------------------------------
  // The singleton and the process-wide slot that holds it

  /** The singleton object; it is created holding Jet. */
  class GlobalColorMapSingleton {
    var colorMap: Palette

    constructor ()
      ensures colorMap == Jet
    {
      colorMap := Jet;
    }
  }

  /**
   * The process-wide storage of the function-local static that GetInstance
   * creates on its first call. `History` is every selector call made so far
   * and `Replies` what the Get calls among them returned.
   */
  class Globals {
    var singleton: GlobalColorMapSingleton?
    ghost var History: seq<Call>
    ghost var Replies: seq<Palette>

    /** The palette a Get would return now: Jet until the singleton exists. */
    ghost function Current(): Palette
      reads this, singleton
    {
      if singleton == null then Jet else singleton.colorMap
    }

    /** The held palette and the Get replies so far follow the state machine. */
    ghost predicate Valid()
      reads this, singleton
    {
      Current() == Run(Jet, History) && Replies == GetReplies(Jet, History)
    }

    /** A process that has not touched the selector yet. */
    constructor ()
      ensures Valid() && singleton == null
      ensures History == [] && Replies == [] && Current() == Jet
    {
      singleton := null;
      History := [];
      Replies := [];
    }

    /** Returns the singleton, creating it holding Jet on the first call. */
    method GetInstance() returns (s: GlobalColorMapSingleton)
      requires Valid()
      modifies this
      ensures Valid() && singleton == s
      ensures old(singleton) != null ==> s == old(singleton)
      ensures old(singleton) == null ==> fresh(s) && s.colorMap == Jet
      ensures Current() == old(Current())
      ensures History == old(History) && Replies == old(Replies)
    {
      if singleton == null {
        singleton := new GlobalColorMapSingleton();
      }
      s := singleton;
    }

    /** Returns the held palette; the held palette does not change. */
    method GetGlobalColorMap() returns (p: Palette)
      requires Valid()
      modifies this
      ensures Valid() && singleton != null
      ensures old(singleton) != null ==> singleton == old(singleton)
      ensures old(singleton) == null ==> fresh(singleton)
      ensures p == old(Current()) && Current() == old(Current())
      ensures History == old(History) + [GetCall] && Replies == old(Replies) + [p]
    {
      var s := GetInstance();
      p := s.colorMap;
      RunAppend(Jet, History, [GetCall]);
      RunOne(Run(Jet, History), GetCall);
      History := History + [GetCall];
      Replies := Replies + [p];
    }

    /** Replaces the held palette by the one `option` selects. */
    method SetGlobalColorMap(option: ColorMapOption)
      requires Valid()
      modifies this, singleton
      ensures Valid() && singleton != null
      ensures old(singleton) != null ==> singleton == old(singleton)
      ensures old(singleton) == null ==> fresh(singleton)
      ensures Current() == SelectedPalette(option)
      ensures History == old(History) + [SetCall(option)] && Replies == old(Replies)
    {
      var s := GetInstance();
      match option {
        case OptionGray => s.colorMap := Gray;
        case OptionSummer => s.colorMap := Summer;
        case OptionWinter => s.colorMap := Winter;
        case OptionJet => s.colorMap := Jet;
        case OptionOther(_) => s.colorMap := Jet;
      }
      RunAppend(Jet, History, [SetCall(option)]);
      RunOne(Run(Jet, History), SetCall(option));
      History := History + [SetCall(option)];
    }
  }

  /** A process's first uses of the selector, as callers see them. */
  method UsageScenario(h: Helpers)
  {
    var g := new Globals();
    var p := g.GetGlobalColorMap();
    assert p == Jet;
    g.SetGlobalColorMap(OptionGray);
    p := g.GetGlobalColorMap();
    assert GetColor(h, p, 0.3) == Rgb(0.3, 0.3, 0.3);
    g.SetGlobalColorMap(OptionOther(17));
    p := g.GetGlobalColorMap();
    assert p == Jet;
    var q := g.GetGlobalColorMap();
    assert q == p;
  }
}
