/** Positional arguments of a call (rpc/json.go), and their use by subscriptions (rpc/handler.go). */
module Arguments {
  import opened Options

  /** A parameter type, as far as argument parsing looks at it. */
  datatype ArgType = ArgType(isPointer: bool, name: string)

  const STRING_TYPE := ArgType(false, "string")

  /** The decoder's view of the "params" text. An array may end before its bracket. */
  datatype Params<J> = Absent | Null | Malformed | Array(values: seq<J>, terminated: bool) | NotArray

  /** A decoded value, or the zero value of a pointer type. */
  datatype Arg<V> = Decoded(value: V) | NilPointer

  datatype ArgError = SyntaxError | NonArray | TooMany(want: nat) | Invalid(index: nat) | MissingRequired(index: nat)

  datatype Parsed<T> = Ok(value: T) | Err(error: ArgError)

  /** Decoding one JSON value into a variable of the given type. */
  type Decoder<!J(!new), !V> = (J, ArgType) -> Option<V>

  predicate Decodes<J(!new), V>(dec: Decoder<J, V>, values: seq<J>, types: seq<ArgType>, n: nat)
    requires n <= |values| && n <= |types|
  {
    forall i :: 0 <= i < n ==> dec(values[i], types[i]).Some?
  }

  /** The arguments are the decoded values, in order. */
  predicate IsDecoded<J(!new), V(==)>(dec: Decoder<J, V>, values: seq<J>, types: seq<ArgType>, args: seq<Arg<V>>)
    requires |args| <= |values| && |args| <= |types|
  {
    forall i :: 0 <= i < |args| ==> args[i].Decoded? && dec(values[i], types[i]) == Some(args[i].value)
  }

  /** What an error says about the arguments: the first thing that is wrong with them. */
  ghost predicate Explains<J(!new), V>(dec: Decoder<J, V>, values: seq<J>, terminated: bool, types: seq<ArgType>, e: ArgError) {
    match e
    case TooMany(want) => want == |types| < |values| && Decodes(dec, values, types, |types|)
    case Invalid(i) => i < |values| && i < |types| && dec(values[i], types[i]).None? && Decodes(dec, values, types, i)
    case SyntaxError => !terminated && |values| <= |types| && Decodes(dec, values, types, |values|)
    case _ => false
  }

  method ParseArgumentArray<J(!new), V(==)>(dec: Decoder<J, V>, values: seq<J>, terminated: bool, types: seq<ArgType>)
    returns (r: Parsed<seq<Arg<V>>>)
    ensures r.Ok? <==> terminated && |values| <= |types| && Decodes(dec, values, types, |values|)
    ensures r.Ok? ==> |r.value| == |values| && IsDecoded(dec, values, types, r.value)
    ensures r.Err? ==> Explains(dec, values, terminated, types, r.error)
  {
    var args: seq<Arg<V>> := [];
    for i := 0 to |values|
      invariant i <= |types| && |args| == i
      invariant Decodes(dec, values, types, i) && IsDecoded(dec, values, types, args)
    {
      if i >= |types| {
        return Err(TooMany(|types|));
      }
      var v := dec(values[i], types[i]);
      if v.None? {
        return Err(Invalid(i));
      }
      args := args + [Decoded(v.value)];
    }
    if !terminated {
      return Err(SyntaxError);
    }
    r := Ok(args);
  }

  /** How many arguments are given. */
  function Given<J>(params: Params<J>): nat {
    if params.Array? then |params.values| else 0
  }

  /** The condition under which parsing succeeds. */
  ghost predicate Acceptable<J(!new), V>(dec: Decoder<J, V>, params: Params<J>, types: seq<ArgType>) {
    && (params.Absent? || params.Null? || (params.Array? && params.terminated))
    && Given(params) <= |types|
    && (params.Array? ==> Decodes(dec, params.values, types, |params.values|))
    && forall i :: Given(params) <= i < |types| ==> types[i].isPointer
  }

  /**
   Succeeds exactly if params is absent, null or an array with no more values than types, each
   value decodes, and every missing argument is a pointer; then there is one argument per
   type: the decoded values, followed by nil pointers.
   */
  method ParsePositionalArguments<J(!new), V(==)>(dec: Decoder<J, V>, params: Params<J>, types: seq<ArgType>)
    returns (r: Parsed<seq<Arg<V>>>)
    ensures r.Ok? <==> Acceptable(dec, params, types)
    ensures r.Ok? ==> |r.value| == |types|
    ensures r.Ok? && params.Array? ==> IsDecoded(dec, params.values, types, r.value[..|params.values|])
    ensures r.Ok? ==> forall i :: Given(params) <= i < |types| ==> r.value[i] == NilPointer
    ensures r.Err? && r.error.MissingRequired? ==>
              var i := r.error.index;
              Given(params) <= i < |types| && !types[i].isPointer && forall k :: Given(params) <= k < i ==> types[k].isPointer
    ensures r.Err? && !r.error.MissingRequired? ==>
              if params.Array? then Explains(dec, params.values, params.terminated, types, r.error)
              else r.error == if params.Malformed? then SyntaxError else NonArray
  {
    var args: seq<Arg<V>> := [];
    match params {
      case Absent =>
      case Null =>
      case Malformed => return Err(SyntaxError);
      case Array(values, terminated) =>
        var parsed := ParseArgumentArray(dec, values, terminated, types);
        if parsed.Err? {
          return parsed;
        }
        args := parsed.value;
      case NotArray => return Err(NonArray);
    }
    ghost var given := args;
    for i := |args| to |types|
      invariant |args| == i && |given| <= i && args[..|given|] == given
      invariant forall k :: |given| <= k < i ==> types[k].isPointer && args[k] == NilPointer
    {
      if !types[i].isPointer {
        return Err(MissingRequired(i));
      }
      args := args + [NilPointer];
    }
    r := Ok(args);
  }

  /** handleSubscribe: parses the subscription name with the arguments, then drops it. */
  method SubscriptionArguments<J(!new), V(==)>(dec: Decoder<J, V>, params: Params<J>, types: seq<ArgType>)
    returns (r: Parsed<seq<Arg<V>>>)
    ensures r.Ok? <==> Acceptable(dec, params, [STRING_TYPE] + types)
    ensures r.Ok? ==> |r.value| == |types| && params.Array? && |params.values| > 0
    ensures r.Ok? ==> IsDecoded(dec, params.values[1..], types, r.value[..|params.values| - 1])
    ensures r.Ok? ==> forall i :: |params.values| - 1 <= i < |types| ==> types[i].isPointer && r.value[i] == NilPointer
  {
    var argTypes := [STRING_TYPE] + types;
    r := ParsePositionalArguments(dec, params, argTypes);
    if r.Ok? {
      assert !argTypes[0].isPointer;
      assert forall i :: 0 <= i < |types| ==> argTypes[i + 1] == types[i];
      ghost var all := r.value;
      r := Ok(r.value[1..]);
      ghost var args := r.value[..|params.values| - 1];
      forall i | 0 <= i < |args|
        ensures args[i].Decoded? && dec(params.values[1..][i], types[i]) == Some(args[i].value)
      {
        assert all[..|params.values|][i + 1] == args[i];
        assert argTypes[i + 1] == types[i];
      }
    }
  }
}
