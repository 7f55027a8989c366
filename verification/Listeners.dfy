/** The RIC's publish table: per RAN function the listeners of its indications, ordered by
    function id.  Publishing checks that the function is there and then walks the list of the
    table's first entry. */
module Listeners {
  import opened Containers

  datatype Listener = Stdout | Redis | Influx | Other(name: string)

  const DEFAULTS: seq<Listener> := [Stdout, Redis, Influx]

  datatype Entry = Entry(func: nat, subs: seq<Listener>)

  ghost predicate Sorted(t: seq<Entry>) {
    forall i, j | 0 <= i < j < |t| :: t[i].func < t[j].func
  }

  /** The listeners of a function. */
  function SubsOf(t: seq<Entry>, func: nat): (r: Option<seq<Listener>>) {
    if t == [] then None
    else if t[0].func == func then Some(t[0].subs)
    else SubsOf(t[1..], func)
  }

  /** One registration: appended to the function's list, or a new list in its place. */
  function Add(t: seq<Entry>, func: nat, sub: Listener): (r: seq<Entry>) {
    if t == [] then [Entry(func, [sub])]
    else if t[0].func == func then [t[0].(subs := t[0].subs + [sub])] + t[1..]
    else if func < t[0].func then [Entry(func, [sub])] + t
    else [t[0]] + Add(t[1..], func, sub)
  }

  lemma {:induction false} SmallerIsAbsent(t: seq<Entry>, func: nat)
    requires Sorted(t) && (t != [] ==> func < t[0].func)
    ensures SubsOf(t, func).None?
  {
    if t != [] {
      SmallerIsAbsent(t[1..], func);
    }
  }

  /** A registration lengthens the list of its function, and no other list. */
  lemma {:induction false} AddAppends(t: seq<Entry>, func: nat, sub: Listener, g: nat)
    requires Sorted(t)
    ensures SubsOf(Add(t, func, sub), g) ==
            if g != func then SubsOf(t, g)
            else if SubsOf(t, func).Some? then Some(SubsOf(t, func).value + [sub])
            else Some([sub])
  {
    if t != [] {
      if func < t[0].func {
        SmallerIsAbsent(t, func);
        assert ([Entry(func, [sub])] + t)[1..] == t;
      } else if t[0].func == func {
        assert Add(t, func, sub)[1..] == t[1..];
      } else {
        AddAppends(t[1..], func, sub, g);
        assert Add(t, func, sub)[1..] == Add(t[1..], func, sub);
      }
    }
  }

  lemma {:induction false} AddKeepsSorted(t: seq<Entry>, func: nat, sub: Listener)
    requires Sorted(t)
    ensures Sorted(Add(t, func, sub)) && Add(t, func, sub) != []
    ensures Add(t, func, sub)[0].func == if t == [] || func < t[0].func then func else t[0].func
  {
    if t != [] && t[0].func < func {
      AddKeepsSorted(t[1..], func, sub);
      var rest := Add(t[1..], func, sub);
      assert t[0].func < rest[0].func;
    }
  }

  lemma {:induction false} AddSplits(t: seq<Entry>, i: nat, func: nat, sub: Listener)
    requires i <= |t| && forall j | 0 <= j < i :: t[j].func < func
    ensures Add(t, func, sub) == t[..i] + Add(t[i..], func, sub)
  {
    if i == 0 {
      assert t[0..] == t;
    } else {
      AddSplits(t[1..], i - 1, func, sub);
      assert t[1..][i - 1..] == t[i..];
      assert t[..i] == [t[0]] + t[1..][..i - 1];
    }
  }

  /** The three default listeners of one function. */
  function AddDefaults(t: seq<Entry>, func: nat): (r: seq<Entry>) {
    Add(Add(Add(t, func, Stdout), func, Redis), func, Influx)
  }

  lemma AddDefaultsAppends(t: seq<Entry>, func: nat, g: nat)
    requires Sorted(t)
    ensures Sorted(AddDefaults(t, func)) && AddDefaults(t, func) != []
    ensures SubsOf(AddDefaults(t, func), g) ==
            if g != func then SubsOf(t, g)
            else if SubsOf(t, func).Some? then Some(SubsOf(t, func).value + DEFAULTS)
            else Some(DEFAULTS)
  {
    hide Add, SubsOf, Sorted;
    var t1 := Add(t, func, Stdout);
    var t2 := Add(t1, func, Redis);
    AddKeepsSorted(t, func, Stdout);
    AddKeepsSorted(t1, func, Redis);
    AddKeepsSorted(t2, func, Influx);
    AddAppends(t, func, Stdout, g);
    AddAppends(t1, func, Redis, g);
    AddAppends(t2, func, Influx, g);
    var old0 := if SubsOf(t, func).Some? then SubsOf(t, func).value else [];
    assert old0 + [Stdout] + [Redis] + [Influx] == old0 + DEFAULTS;
    assert [Stdout] + [Redis] + [Influx] == DEFAULTS;
  }

  /** The table after loading the service models `funcs`. */
  function Loaded(funcs: seq<nat>): (t: seq<Entry>) {
    if funcs == [] then [] else AddDefaults(Loaded(funcs[..|funcs| - 1]), funcs[|funcs| - 1])
  }

  ghost predicate Distinct(funcs: seq<nat>) {
    forall i, j | 0 <= i < j < |funcs| :: funcs[i] != funcs[j]
  }

  /** Whatever service models are loaded, each gets the same three listeners in the same order. */
  lemma {:induction false} LoadedIsUniform(funcs: seq<nat>, g: nat)
    requires Distinct(funcs)
    ensures Sorted(Loaded(funcs))
    ensures SubsOf(Loaded(funcs), g) == if g in funcs then Some(DEFAULTS) else None
  {
    if funcs != [] {
      var first, last := funcs[..|funcs| - 1], funcs[|funcs| - 1];
      LoadedIsUniform(first, g);
      LoadedIsUniform(first, last);
      AddDefaultsAppends(Loaded(first), last, g);
    }
  }

  /** What publishing delivers to: the first entry's listeners, provided `func` has an entry. */
  function Published(t: seq<Entry>, func: nat): (r: Option<seq<Listener>>) {
    if SubsOf(t, func).None? then None else Some(t[0].subs)
  }

  /** On the table the RIC loads, publishing from the first entry delivers exactly what
      publishing from the matching entry would. */
  lemma PublishedIsMatching(funcs: seq<nat>, func: nat)
    requires Distinct(funcs)
    ensures Published(Loaded(funcs), func) == SubsOf(Loaded(funcs), func)
  {
    LoadedIsUniform(funcs, func);
    if func in funcs {
      FrontIsLoaded(funcs);
    }
  }

  lemma FrontIsLoaded(funcs: seq<nat>)
    requires Distinct(funcs) && Loaded(funcs) != []
    ensures Loaded(funcs)[0].subs == DEFAULTS && Loaded(funcs)[0].func in funcs
  {
    hide Loaded;
    LoadedIsUniform(funcs, Loaded(funcs)[0].func);
  }

  /** One listener more for a single function, and publishing to that function misses it unless
      the function has the smallest id.  The loader, the only caller of the registration, never
      adds one: this is what the uniform table spares the source. */
  lemma ExtraListenerMissed(funcs: seq<nat>, func: nat, sub: Listener)
    requires Distinct(funcs) && func in funcs
    ensures var t := Add(Loaded(funcs), func, sub);
            Published(t, func) == SubsOf(t, func) <==> Loaded(funcs) != [] && Loaded(funcs)[0].func == func
  {
    hide Loaded;
    var t := Loaded(funcs);
    LoadedIsUniform(funcs, func);
    FrontIsLoaded(funcs);
    AddAppends(t, func, sub, func);
    AddKeepsSorted(t, func, sub);
    if t[0].func != func {
      SmallerIsAbsentTwice(t, func);
      assert Add(t, func, sub)[0] == t[0];
      assert |DEFAULTS| < |DEFAULTS + [sub]|;
    }
  }

  lemma SmallerIsAbsentTwice(t: seq<Entry>, func: nat)
    requires Sorted(t) && t != [] && SubsOf(t, func).Some? && t[0].func != func
    ensures t[0].func < func
  {
    if func < t[0].func {
      SmallerIsAbsent(t, func);
    }
  }

  class PubSub {
    var table: seq<Entry>

    constructor ()
      ensures table == []
    {
      table := [];
    }

    /** Searches the tree in order, then appends or inserts. */
    method RegisterListener(func: nat, sub: Listener)
      requires Sorted(table)
      modifies this
      ensures Sorted(table) && table == Add(old(table), func, sub)
    {
      hide Sorted;
      AddKeepsSorted(table, func, sub);
      var i := 0;
      while i < |table| && table[i].func < func
        invariant i <= |table|
        invariant forall j | 0 <= j < i :: table[j].func < func
      {
        i := i + 1;
      }
      AddSplits(table, i, func, sub);
      if i < |table| && table[i].func == func {
        assert table[i..][1..] == table[i + 1..] && table[i..][0] == table[i];
        table := table[..i] + [table[i].(subs := table[i].subs + [sub])] + table[i + 1..];
      } else {
        table := table[..i] + [Entry(func, [sub])] + table[i..];
      }
      assert table == Add(old(table), func, sub);
    }

    /** Three registrations for each loaded service model, in the order of the plugin tree. */
    method LoadDefaults(funcs: seq<nat>)
      requires table == [] && Distinct(funcs)
      modifies this
      ensures table == Loaded(funcs)
    {
      for i := 0 to |funcs|
        invariant Sorted(table) && table == Loaded(funcs[..i])
      {
        assert funcs[..i + 1][..i] == funcs[..i];
        RegisterListener(funcs[i], Stdout);
        RegisterListener(funcs[i], Redis);
        RegisterListener(funcs[i], Influx);
      }
      assert funcs[..|funcs|] == funcs;
    }

    /** The listeners called for an indication of `func`, in order; None when the assertion on
        the function breaks. */
    method Publish(func: nat) returns (called: Option<seq<Listener>>)
      ensures called == Published(table, func)
    {
      var sm := 0;
      while sm < |table| && table[sm].func != func
        invariant sm <= |table|
        invariant SubsOf(table, func) == SubsOf(table[sm..], func)
      {
        assert table[sm..][1..] == table[sm + 1..];
        sm := sm + 1;
      }
      if sm == |table| {
        return None;
      }
      var arr, out := table[0].subs, [];
      for it := 0 to |arr|
        invariant out == arr[..it]
      {
        out := out + [arr[it]];
      }
      assert arr[..|arr|] == arr;
      called := Some(out);
    }
  }
}
