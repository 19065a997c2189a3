/**
 * content::InjectionObserver: the renderer side of web API injections.  It
 * remembers every injection name it was asked to load, keeps one context
 * per name that has an install API, installs them into each new window
 * object in load order and uninstalls them in reverse order on clear.
 *
 * An injection's install and uninstall functions are identified by its
 * name; `known` is the set of names GetInjectionInstallAPI has an API for.
 * Frames are numbers, and installs and uninstalls are recorded in order.
 */
module InjectionObserver {
  import opened Wrappers
  import opened Sequences

  /** InjectionContext: the injection's API and the frame it was last installed into, if any. */
  datatype Context = Context(name: string, frame: Option<nat>)

  datatype Effect = Installed(name: string, frame: nat) | Uninstalled(name: string, frame: nat)

  datatype Message = LoadExtensionMsg(name: string) | ClearExtensionsMsg | OtherMsg

  function Names(contexts: seq<Context>): (r: seq<string>)
    ensures |r| == |contexts|
    ensures forall i :: 0 <= i < |contexts| ==> r[i] == contexts[i].name
  {
    seq(|contexts|, i requires 0 <= i < |contexts| => contexts[i].name)
  }

  /** The uninstall calls made while walking `contexts` front to back: one per context that has a frame. */
  function Uninstalls(contexts: seq<Context>): seq<Effect>
  {
    if contexts == [] then []
    else
      var last := contexts[|contexts| - 1];
      Uninstalls(contexts[..|contexts| - 1]) +
        (if last.frame.Some? then [Uninstalled(last.name, last.frame.value)] else [])
  }

  /** The install calls made while walking `contexts` front to back into `frame`. */
  function Installs(contexts: seq<Context>, frame: nat): seq<Effect>
  {
    if contexts == [] then []
    else Installs(contexts[..|contexts| - 1], frame) + [Installed(contexts[|contexts| - 1].name, frame)]
  }

  lemma {:induction false} InstallsAt(contexts: seq<Context>, frame: nat)
    ensures |Installs(contexts, frame)| == |contexts|
    ensures forall i :: 0 <= i < |contexts| ==> Installs(contexts, frame)[i] == Installed(contexts[i].name, frame)
    decreases |contexts|
  {
    if contexts != [] {
      InstallsAt(contexts[..|contexts| - 1], frame);
    }
  }

  lemma {:induction false} UninstallsAppend(a: seq<Context>, b: seq<Context>)
    ensures Uninstalls(a + b) == Uninstalls(a) + Uninstalls(b)
    decreases |b|
  {
    if b == [] {
      assert a + b == a;
    } else {
      var init := b[..|b| - 1];
      assert (a + b)[..|a + b| - 1] == a + init;
      UninstallsAppend(a, init);
    }
  }

  /** Walking the contexts in reverse gives the uninstall calls of the forward walk, reversed. */
  lemma {:induction false} UninstallsReverse(contexts: seq<Context>)
    ensures Uninstalls(Reverse(contexts)) == Reverse(Uninstalls(contexts))
    decreases |contexts|
  {
    if contexts != [] {
      var first := contexts[0];
      var rest := contexts[1..];
      UninstallsReverse(rest);
      // Reverse(contexts) == Reverse(rest) + [first]
      UninstallsAppend(Reverse(rest), [first]);
      assert [first][..0] == [];
      // Uninstalls(contexts) == Uninstalls([first]) + Uninstalls(rest)
      assert contexts == [first] + rest;
      UninstallsAppend([first], rest);
      ReverseAppend(Uninstalls([first]), Uninstalls(rest));
      ReverseSingleOrEmpty(Uninstalls([first]));
    }
  }

  lemma {:induction false} ReverseAppend<T>(a: seq<T>, b: seq<T>)
    ensures Reverse(a + b) == Reverse(b) + Reverse(a)
    decreases |a|
  {
    if a == [] {
      assert a + b == b;
    } else {
      assert (a + b)[1..] == a[1..] + b;
      assert (a + b)[0] == a[0];
      ReverseAppend(a[1..], b);
    }
  }

  lemma ReverseSingleOrEmpty<T>(s: seq<T>)
    requires |s| <= 1
    ensures Reverse(s) == s
  {
    if |s| == 1 {
      assert s[1..] == [];
    }
  }

  /** One more step of the backward walk: context i is uninstalled after those behind it. */
  lemma UninstallsStep(contexts: seq<Context>, i: nat)
    requires i < |contexts|
    ensures Uninstalls(Reverse(contexts[i..])) ==
            Uninstalls(Reverse(contexts[i + 1..])) +
              (if contexts[i].frame.Some? then [Uninstalled(contexts[i].name, contexts[i].frame.value)] else [])
  {
    assert contexts[i..][1..] == contexts[i + 1..];
    assert Reverse(contexts[i..]) == Reverse(contexts[i + 1..]) + [contexts[i]];
    UninstallsAppend(Reverse(contexts[i + 1..]), [contexts[i]]);
    assert [contexts[i]][..0] == [];
  }

  /** The walk from the last context to the first, uninstalling each one that has a frame. */
  method UninstallBackwards(contexts: seq<Context>) returns (out: seq<Effect>)
    ensures out == Uninstalls(Reverse(contexts))
  {
    out := [];
    var i := |contexts|;
    while i > 0
      invariant 0 <= i <= |contexts|
      invariant out == Uninstalls(Reverse(contexts[i..]))
      decreases i
    {
      i := i - 1;
      UninstallsStep(contexts, i);
      var c := contexts[i];
      if c.frame.Some? {
        out := out + [Uninstalled(c.name, c.frame.value)];
      }
    }
    assert contexts[0..] == contexts;
  }

  /**
   * The names, in order, that loading `names` one after the other adds as
   * contexts to an observer that has already seen `seen`: each name that
   * is new and has an install API, when it first occurs.
   */
  function NewContextNames(known: set<string>, seen: set<string>, names: seq<string>): seq<string>
  {
    if names == [] then []
    else
      var init := names[..|names| - 1];
      var n := names[|names| - 1];
      NewContextNames(known, seen, init) +
        (if n !in seen && n !in init && n in known then [n] else [])
  }

  /** Loading a list adds each name with an install API exactly once, and nothing else. */
  lemma {:induction false} NewContextNamesExact(known: set<string>, seen: set<string>, names: seq<string>)
    ensures Distinct(NewContextNames(known, seen, names))
    ensures forall n :: n in NewContextNames(known, seen, names) <==> n in names && n !in seen && n in known
    decreases |names|
  {
    if names != [] {
      var init := names[..|names| - 1];
      var n := names[|names| - 1];
      NewContextNamesExact(known, seen, init);
      assert forall m :: m in names <==> m in init || m == n by {
        assert names == init + [n];
      }
    }
  }

  class InjectionObserver {
    const known: set<string>
    /** `injections_`: every name a load was requested for. */
    var injections: set<string>
    /** `injections_contexts_`, in load order. */
    var contexts: seq<Context>
    var effects: seq<Effect>

    ghost predicate Valid()
      reads this
    {
      && (forall i :: 0 <= i < |contexts| ==> contexts[i].name in injections && contexts[i].name in known)
      && Distinct(Names(contexts))
    }

    /** The constructor loads the preloaded names in their given order. */
    constructor (knownApis: set<string>, preloaded: seq<string>)
      ensures Valid() && known == knownApis
      ensures injections == set n | n in preloaded
      ensures Names(contexts) == NewContextNames(knownApis, {}, preloaded)
      ensures forall i :: 0 <= i < |contexts| ==> contexts[i].frame.None?
      ensures effects == []
    {
      known := knownApis;
      injections := {};
      contexts := [];
      effects := [];
      new;
      for i := 0 to |preloaded|
        invariant Valid() && effects == []
        invariant injections == set n | n in preloaded[..i]
        invariant Names(contexts) == NewContextNames(knownApis, {}, preloaded[..i])
        invariant forall j :: 0 <= j < |contexts| ==> contexts[j].frame.None?
      {
        assert preloaded[..i + 1][..i] == preloaded[..i];
        assert preloaded[..i + 1] == preloaded[..i] + [preloaded[i]];
        OnLoadExtension(preloaded[i]);
      }
      assert preloaded[..|preloaded|] == preloaded;
    }

    /**
     * OnLoadExtension: a name already seen changes nothing.  A new name is
     * remembered even when it has no install API, so it is never retried;
     * only with an API does it get a context, at the end, with no frame yet.
     */
    method OnLoadExtension(name: string)
      requires Valid()
      modifies this`injections, this`contexts
      ensures Valid()
      ensures name in old(injections) ==> injections == old(injections) && contexts == old(contexts)
      ensures name !in old(injections) ==>
                injections == old(injections) + {name} &&
                contexts == old(contexts) + (if name in known then [Context(name, None)] else [])
    {
      if name in injections {
        return;
      }
      injections := injections + {name};
      if name in known {
        assert forall i :: 0 <= i < |contexts| ==> contexts[i].name != name;
        contexts := contexts + [Context(name, None)];
        assert Names(contexts) == Names(old(contexts)) + [name];
      }
    }

    /**
     * OnClearExtensions: uninstalls the contexts from the last loaded to
     * the first, skipping those never installed into a frame, then forgets
     * every name and context.
     */
    method OnClearExtensions()
      requires Valid()
      modifies this
      ensures Valid()
      ensures injections == {} && contexts == []
      ensures effects == old(effects) + Uninstalls(Reverse(old(contexts)))
    {
      var out := UninstallBackwards(contexts);
      effects := effects + out;
      injections := {};
      contexts := [];
    }

    /** DidClearWindowObject: every context now belongs to `frame`, and each is installed there in load order. */
    method DidClearWindowObject(frame: nat)
      requires Valid()
      modifies this`contexts, this`effects
      ensures Valid()
      ensures |contexts| == |old(contexts)|
      ensures forall i :: 0 <= i < |contexts| ==> contexts[i] == Context(old(contexts)[i].name, Some(frame))
      ensures effects == old(effects) + Installs(old(contexts), frame)
    {
      for i := 0 to |contexts|
        invariant |contexts| == |old(contexts)|
        invariant forall j :: 0 <= j < i ==> contexts[j] == Context(old(contexts)[j].name, Some(frame))
        invariant forall j :: i <= j < |contexts| ==> contexts[j] == old(contexts)[j]
        invariant effects == old(effects) + Installs(old(contexts)[..i], frame)
      {
        assert old(contexts)[..i + 1][..i] == old(contexts)[..i];
        effects := effects + [Installed(contexts[i].name, frame)];
        contexts := contexts[i := contexts[i].(frame := Some(frame))];
      }
      assert old(contexts)[..|contexts|] == old(contexts);
      assert Names(contexts) == Names(old(contexts));
    }

    /** OnMessageReceived: only load and clear messages are handled. */
    method OnMessageReceived(message: Message) returns (handled: bool)
      requires Valid()
      modifies this
      ensures Valid()
      ensures handled <==> !message.OtherMsg?
      ensures message.OtherMsg? ==>
                injections == old(injections) && contexts == old(contexts) && effects == old(effects)
      ensures message.ClearExtensionsMsg? ==>
                injections == {} && contexts == [] && effects == old(effects) + Uninstalls(Reverse(old(contexts)))
      ensures message.LoadExtensionMsg? ==>
                && effects == old(effects)
                && (message.name in old(injections) ==> injections == old(injections) && contexts == old(contexts))
                && (message.name !in old(injections) ==>
                      injections == old(injections) + {message.name} &&
                      contexts == old(contexts) + (if message.name in known then [Context(message.name, None)] else []))
    {
      handled := true;
      match message {
        case LoadExtensionMsg(name) => OnLoadExtension(name);
        case ClearExtensionsMsg => OnClearExtensions();
        case OtherMsg => handled := false;
      }
    }
  }

  /** There are never more contexts than names seen. */
  lemma ContextsWithinSeen(o: InjectionObserver)
    requires o.Valid()
    ensures |o.contexts| <= |o.injections|
  {
    DistinctWithin(Names(o.contexts), o.injections);
  }
}
