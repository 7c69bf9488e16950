/** The symbol values of src/ast.rs and its scope stack: a `Scope` is one
    frame of name-to-symbol bindings, and the call stack is a list of frames
    whose back is the innermost. */
module Ast {
  import opened Outcomes
  import opened Tokens

  // ----- symbols -----

  datatype FunctionSymbolArgs = FunctionSymbolArgs(args: seq<Token>, body: seq<Token>)

  datatype ObjectSymbolArgs = ObjectSymbolArgs(vars: map<string, SymbolType>, methods: map<string, FunctionSymbolArgs>)

  datatype ArraySymbolArgs = ArraySymbolArgs(array: seq<SymbolType>)

  /** What a name can be bound to. */
  datatype SymbolType =
    | Number(number: string)
    | String(text: string)
    | Object(obj: ObjectSymbolArgs)
    | Array(arr: ArraySymbolArgs)
    | Function(fn: FunctionSymbolArgs)
    | Pointer(target: string)

  type Frame = map<string, SymbolType>

  // ----- one frame -----

  class Scope {
    var symbols: Frame

    /** `Scope::new`: a frame with no bindings. */
    constructor ()
      ensures symbols == map[]
    {
      symbols := map[];
    }

    /** `Scope::add`: binds `name`, replacing any earlier binding of it. */
    method Add(name: string, symbol: SymbolType)
      modifies this
      ensures symbols == old(symbols)[name := symbol]
      ensures name in symbols && symbols[name] == symbol
      ensures forall n :: n != name ==> (n in symbols <==> n in old(symbols))
      ensures forall n :: n != name && n in old(symbols) ==> symbols[n] == old(symbols)[n]
    {
      symbols := symbols[name := symbol];
    }
  }

  // ----- the stack of frames, as values -----

  /** The frames a lookup of `name` searches, innermost (last) first. */
  function LookupIn(frames: seq<Frame>, name: string): (r: Option<SymbolType>)
    ensures r.Some? ==> exists k :: 0 <= k < |frames| && name in frames[k]
    decreases |frames|
  {
    if frames == [] then None
    else
      var top := frames[|frames| - 1];
      if name in top then Some(top[name]) else LookupIn(frames[..|frames| - 1], name)
  }

  /** The frames after `add_symbol(name, symbol)`: the innermost frame gains
      the binding, a fresh one first when there is none. */
  function AddedTo(frames: seq<Frame>, name: string, symbol: SymbolType): (r: seq<Frame>)
    ensures |r| == if frames == [] then 1 else |frames|
  {
    if frames == [] then [map[name := symbol]]
    else frames[..|frames| - 1] + [frames[|frames| - 1][name := symbol]]
  }

  /** The frames after `pop_back`, which does nothing on an empty list. */
  function WithoutTop(frames: seq<Frame>): (r: seq<Frame>)
    ensures |r| == if frames == [] then 0 else |frames| - 1
  {
    if frames == [] then [] else frames[..|frames| - 1]
  }

  /** A lookup finds nothing exactly when no frame binds the name. */
  lemma {:induction false} LookupNoneIff(frames: seq<Frame>, name: string)
    ensures LookupIn(frames, name).None? <==> forall i :: 0 <= i < |frames| ==> name !in frames[i]
    decreases |frames|
  {
    if frames != [] {
      var below := frames[..|frames| - 1];
      LookupNoneIff(below, name);
      assert forall i :: 0 <= i < |below| ==> below[i] == frames[i];
    }
  }

  /** The binding found is that of the innermost frame binding the name. */
  lemma {:induction false} LookupInnermost(frames: seq<Frame>, name: string, k: nat)
    requires k < |frames| && name in frames[k]
    requires forall j :: k < j < |frames| ==> name !in frames[j]
    ensures LookupIn(frames, name) == Some(frames[k][name])
    decreases |frames|
  {
    if k < |frames| - 1 {
      var below := frames[..|frames| - 1];
      assert forall j :: k < j < |below| ==> below[j] == frames[j];
      LookupInnermost(below, name, k);
    }
  }

  /** Every binding a lookup returns comes from a frame with no binding of
      the name above it. */
  lemma {:induction false} LookupFound(frames: seq<Frame>, name: string)
    requires LookupIn(frames, name).Some?
    ensures exists k :: 0 <= k < |frames| && name in frames[k] && frames[k][name] == LookupIn(frames, name).value
                     && (forall j :: k < j < |frames| ==> name !in frames[j])
    decreases |frames|
  {
    var top := frames[|frames| - 1];
    if name !in top {
      var below := frames[..|frames| - 1];
      LookupFound(below, name);
      var k :| 0 <= k < |below| && name in below[k] && below[k][name] == LookupIn(below, name).value
        && forall j :: k < j < |below| ==> name !in below[j];
      assert frames[k] == below[k];
      assert forall j :: k < j < |frames| - 1 ==> frames[j] == below[j];
    }
  }

  /** After `add_symbol(name, symbol)`, a lookup of `name` finds `symbol`. */
  lemma AddedThenFound(frames: seq<Frame>, name: string, symbol: SymbolType)
    ensures LookupIn(AddedTo(frames, name, symbol), name) == Some(symbol)
  {
    var r := AddedTo(frames, name, symbol);
    assert r[|r| - 1] == (if frames == [] then map[name := symbol] else frames[|frames| - 1][name := symbol]);
  }

  /** `add_symbol` leaves the lookup of every other name as it was. */
  lemma AddedKeepsOthers(frames: seq<Frame>, name: string, symbol: SymbolType, other: string)
    requires other != name
    ensures LookupIn(AddedTo(frames, name, symbol), other) == LookupIn(frames, other)
  {
    var r := AddedTo(frames, name, symbol);
    if frames == [] {
      assert r[..0] == [];
    } else {
      var n := |frames|;
      assert r[..n - 1] == frames[..n - 1];
      assert (other in r[n - 1]) == (other in frames[n - 1]);
    }
  }

  /** `add_symbol` changes only the innermost frame, and only at `name`. */
  lemma AddedTouchesOnlyTop(frames: seq<Frame>, name: string, symbol: SymbolType)
    requires frames != []
    ensures var r := AddedTo(frames, name, symbol);
      (forall i :: 0 <= i < |frames| - 1 ==> r[i] == frames[i])
      && r[|frames| - 1] == frames[|frames| - 1][name := symbol]
  {
  }

  /** Pushing a frame and popping it restores the stack. */
  lemma PopAfterPush(frames: seq<Frame>, f: Frame)
    ensures WithoutTop(frames + [f]) == frames
  {
    assert (frames + [f])[..|frames|] == frames;
  }

  /** A pushed frame shadows the frames below it for the names it binds and
      is transparent for the others. */
  lemma PushShadows(frames: seq<Frame>, f: Frame, name: string)
    ensures LookupIn(frames + [f], name) == if name in f then Some(f[name]) else LookupIn(frames, name)
  {
    assert (frames + [f])[..|frames|] == frames;
  }

  // ----- the call stack -----

  /** `CALL_STACK`, owned rather than behind a global lock: `frames[0]` is
      the front of the list, the last frame its back. */
  class CallStack {
    var frames: seq<Frame>

    constructor ()
      ensures frames == []
    {
      frames := [];
    }

    /** `push`: the scope becomes the innermost frame. */
    method Push(scope: Scope)
      modifies this
      ensures frames == old(frames) + [scope.symbols]
    {
      frames := frames + [scope.symbols];
    }

    /** `pop`: drops the innermost frame, if any. */
    method Pop()
      modifies this
      ensures frames == WithoutTop(old(frames))
    {
      if |frames| > 0 {
        frames := frames[..|frames| - 1];
      }
    }

    /** `add_symbol`: binds the name in the innermost frame, pushing an
        empty frame first when the stack is empty. */
    method AddSymbol(name: string, symbol: SymbolType)
      modifies this
      ensures frames == AddedTo(old(frames), name, symbol)
    {
      if frames == [] {
        var empty := new Scope();
        frames := frames + [empty.symbols];
      }
      var scope := frames[|frames| - 1];
      frames := frames[..|frames| - 1] + [scope[name := symbol]];
    }

    /** `lookup_symbol`: searches the frames from the innermost out. */
    method LookupSymbol(name: string) returns (r: Option<SymbolType>)
      ensures r == LookupIn(frames, name)
    {
      var i := |frames|;
      assert frames[..i] == frames;
      while i > 0
        invariant 0 <= i <= |frames|
        invariant LookupIn(frames[..i], name) == LookupIn(frames, name)
        decreases i
      {
        var scope := frames[i - 1];
        if name in scope {
          return Some(scope[name]);
        }
        assert frames[..i][..i - 1] == frames[..i - 1];
        i := i - 1;
      }
      return None;
    }
  }
}
