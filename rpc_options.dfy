/**
 * Request options: the typed options a caller passes to a BigQuery operation, the
 * enum-keyed map they are folded into before any remote call (BigQueryImpl.optionMap),
 * and the rewrite of that map that a page fetcher uses to ask for the next page.
 */
module RpcOptions {
  import opened Wrappers

  /**
   * The keys of the transport's option map (BigQueryRpc.Option). BigQueryRpc is not
   * part of this model; of its constants only PageToken is treated specially here.
   */
  datatype RpcOption =
    | Fields | DeleteContents | AllDatasets | AllUsers | MaxResults
    | PageToken | StartIndex | StateFilter | Timeout

  /** An option's value as the map stores it; NullValue is Java's null. */
  datatype OptionValue =
    | NullValue
    | StringValue(s: string)
    | LongValue(n: int)
    | BooleanValue(b: bool)
    | StringListValue(ss: seq<string>)

  /** A typed option (com.google.cloud.bigquery.Option): the RPC key it sets and its value. */
  datatype BigQueryOption = BigQueryOption(rpcOption: RpcOption, value: OptionValue)

  /** The map handed to the transport (Map<BigQueryRpc.Option, ?>). */
  type RpcOptionMap = map<RpcOption, OptionValue>

  /** What EnumMap.put returns: the value stored under k before the put, or null. */
  function Previous(m: RpcOptionMap, k: RpcOption): OptionValue
  {
    if k in m then m[k] else NullValue
  }

  /**
   * The fold that optionMap performs, one option at a time from the left. Failure(o)
   * is the IllegalArgumentException "Duplicate option o" raised by checkArgument.
   */
  function OptionMapOf(options: seq<BigQueryOption>): Result<RpcOptionMap, BigQueryOption>
  {
    if options == [] then Success(map[])
    else
      var option := options[|options| - 1];
      match OptionMapOf(options[..|options| - 1])
      case Failure(duplicate) => Failure(duplicate)
      case Success(m) =>
        if Previous(m, option.rpcOption) != NullValue then Failure(option)
        else Success(m[option.rpcOption := option.value])
  }

  /** The RPC keys the options set. */
  ghost function Kinds(options: seq<BigQueryOption>): set<RpcOption>
  {
    set i | 0 <= i < |options| :: options[i].rpcOption
  }

  /** No later option sets the same RPC key as options[i]. */
  ghost predicate LastOfKind(options: seq<BigQueryOption>, i: int)
    requires 0 <= i < |options|
  {
    forall j :: i < j < |options| ==> options[j].rpcOption != options[i].rpcOption
  }

  /** options[j] sets a key that an earlier option already set to a non-null value. */
  ghost predicate RepeatsLiveKind(options: seq<BigQueryOption>, j: int)
    requires 0 <= j < |options|
  {
    exists i :: 0 <= i < j && options[i].rpcOption == options[j].rpcOption && options[i].value != NullValue
  }

  /** No option repeats a key that was set to a non-null value before it. */
  ghost predicate NoLiveDuplicate(options: seq<BigQueryOption>)
  {
    forall j :: 0 <= j < |options| ==> !RepeatsLiveKind(options, j)
  }

  /** options[j] is the first option that repeats a key set to a non-null value. */
  ghost predicate FirstLiveDuplicate(options: seq<BigQueryOption>, j: int)
  {
    && 0 <= j < |options|
    && RepeatsLiveKind(options, j)
    && forall j' :: 0 <= j' < j ==> !RepeatsLiveKind(options, j')
  }

  /** The position of the last option that sets the same key as options[i]. */
  lemma LastOccurrence(options: seq<BigQueryOption>, i: int) returns (j: int)
    requires 0 <= i < |options|
    ensures i <= j < |options| && options[j].rpcOption == options[i].rpcOption
    ensures LastOfKind(options, j)
    decreases |options| - i
  {
    if LastOfKind(options, i) {
      j := i;
    } else {
      var k :| i < k < |options| && options[k].rpcOption == options[i].rpcOption;
      j := LastOccurrence(options, k);
    }
  }

  /** Once a prefix of the options fails, the whole list fails with the same option. */
  lemma {:induction false} FailureIsFinal(options: seq<BigQueryOption>, n: int)
    requires 0 <= n <= |options|
    requires OptionMapOf(options[..n]).Failure?
    ensures OptionMapOf(options) == OptionMapOf(options[..n])
    decreases |options| - n
  {
    if n < |options| {
      var longer := options[..n + 1];
      assert longer[..n] == options[..n];
      FailureIsFinal(options, n + 1);
    } else {
      assert options[..n] == options;
    }
  }

  /** m holds one entry per key the options set: the value of the last option with that key. */
  ghost predicate Represents(m: RpcOptionMap, options: seq<BigQueryOption>)
  {
    && m.Keys == Kinds(options)
    && forall i :: 0 <= i < |options| && LastOfKind(options, i) ==> m[options[i].rpcOption] == options[i].value
  }

  /** Dropping the last option keeps what the earlier ones repeat. */
  lemma PrefixRepeats(options: seq<BigQueryOption>)
    requires |options| > 0
    ensures forall j :: 0 <= j < |options| - 1 ==>
              (RepeatsLiveKind(options[..|options| - 1], j) <==> RepeatsLiveKind(options, j))
  {
    var init := options[..|options| - 1];
    assert forall i :: 0 <= i < |init| ==> init[i] == options[i];
  }

  /** A list has no live duplicate when all but its last option have none and the last is not one. */
  lemma NoLiveDuplicateSnoc(options: seq<BigQueryOption>)
    requires |options| > 0
    ensures NoLiveDuplicate(options) <==>
              NoLiveDuplicate(options[..|options| - 1]) && !RepeatsLiveKind(options, |options| - 1)
  {
    var n := |options|;
    var init := options[..n - 1];
    PrefixRepeats(options);
    if NoLiveDuplicate(init) && !RepeatsLiveKind(options, n - 1) {
      forall j | 0 <= j < n ensures !RepeatsLiveKind(options, j) {
        if j < n - 1 { assert !RepeatsLiveKind(init, j); }
      }
    }
    if NoLiveDuplicate(options) {
      forall j | 0 <= j < n - 1 ensures !RepeatsLiveKind(init, j) {
        assert !RepeatsLiveKind(options, j);
      }
    }
  }

  /** The keys of a list are those of all but its last option, plus the last option's. */
  lemma KindsSnoc(options: seq<BigQueryOption>)
    requires |options| > 0
    ensures Kinds(options) == Kinds(options[..|options| - 1]) + {options[|options| - 1].rpcOption}
  {
    var n := |options|;
    var init := options[..n - 1];
    forall x | x in Kinds(options) ensures x in Kinds(init) + {options[n - 1].rpcOption} {
      var i :| 0 <= i < n && options[i].rpcOption == x;
      if i < n - 1 { assert init[i] == options[i]; }
    }
    forall x | x in Kinds(init) ensures x in Kinds(options) {
      var i :| 0 <= i < n - 1 && init[i].rpcOption == x;
      assert options[i].rpcOption == x;
    }
  }

  /**
   * On an accepted prefix, the value EnumMap.put returns for the last option is non-null
   * exactly when that option repeats a key set before to a non-null value.
   */
  lemma PreviousDetectsRepeat(options: seq<BigQueryOption>, m: RpcOptionMap)
    requires |options| > 0
    requires NoLiveDuplicate(options[..|options| - 1]) && Represents(m, options[..|options| - 1])
    ensures Previous(m, options[|options| - 1].rpcOption) != NullValue <==> RepeatsLiveKind(options, |options| - 1)
  {
    var n := |options|;
    var init := options[..n - 1];
    var k := options[n - 1].rpcOption;
    assert forall i :: 0 <= i < n - 1 ==> init[i] == options[i];
    if Previous(m, k) != NullValue {
      assert k in Kinds(init);
      var i :| 0 <= i < n - 1 && init[i].rpcOption == k;
      var last := LastOccurrence(init, i);
      assert options[last].rpcOption == k && options[last].value != NullValue;
    } else {
      forall i | 0 <= i < n - 1 && options[i].rpcOption == k
        ensures options[i].value == NullValue
      {
        if LastOfKind(init, i) {
          assert m[k] == init[i].value;
        } else {
          var j :| i < j < n - 1 && init[j].rpcOption == init[i].rpcOption;
          assert !RepeatsLiveKind(init, j);
        }
      }
    }
  }

  /** Putting the last option's value keeps the map a faithful record of the options. */
  lemma PutRepresents(options: seq<BigQueryOption>, m: RpcOptionMap)
    requires |options| > 0 && Represents(m, options[..|options| - 1])
    ensures Represents(m[options[|options| - 1].rpcOption := options[|options| - 1].value], options)
  {
    var n := |options|;
    var init := options[..n - 1];
    var k := options[n - 1].rpcOption;
    var m' := m[k := options[n - 1].value];
    KindsSnoc(options);
    forall i | 0 <= i < n && LastOfKind(options, i)
      ensures m'[options[i].rpcOption] == options[i].value
    {
      if i < n - 1 {
        assert options[i].rpcOption != k;
        assert init[i] == options[i];
        assert LastOfKind(init, i);
      }
    }
  }

  /**
   * optionMap succeeds exactly when no option repeats a key already set to a non-null
   * value; the map then has one entry per key the options set, holding the value of the
   * last option with that key. Zero options give the empty map.
   */
  lemma {:induction false} OptionMapOfAccepts(options: seq<BigQueryOption>)
    ensures OptionMapOf(options).Success? <==> NoLiveDuplicate(options)
    ensures OptionMapOf(options).Success? ==> Represents(OptionMapOf(options).value, options)
  {
    if options == [] {
      assert Kinds(options) == {};
    } else {
      var n := |options|;
      var init := options[..n - 1];
      var option := options[n - 1];
      OptionMapOfAccepts(init);
      NoLiveDuplicateSnoc(options);
      match OptionMapOf(init)
      case Failure(e) =>
        assert OptionMapOf(options) == Failure(e);
      case Success(m) =>
        PreviousDetectsRepeat(options, m);
        if Previous(m, option.rpcOption) == NullValue {
          assert OptionMapOf(options) == Success(m[option.rpcOption := option.value]);
          PutRepresents(options, m);
        } else {
          assert OptionMapOf(options) == Failure(option);
        }
    }
  }

  /**
   * When optionMap fails, the option it reports is the first one that repeats a key
   * already set to a non-null value.
   */
  lemma {:induction false} OptionMapOfRejects(options: seq<BigQueryOption>)
    requires OptionMapOf(options).Failure?
    ensures exists j :: FirstLiveDuplicate(options, j) && OptionMapOf(options).error == options[j]
  {
    var n := |options|;
    var init := options[..n - 1];
    assert forall i :: 0 <= i < n - 1 ==> init[i] == options[i];
    assert forall j :: 0 <= j < n - 1 ==> (RepeatsLiveKind(init, j) <==> RepeatsLiveKind(options, j));
    match OptionMapOf(init)
    case Failure(_) =>
      OptionMapOfRejects(init);
      var j :| FirstLiveDuplicate(init, j) && OptionMapOf(init).error == init[j];
      assert FirstLiveDuplicate(options, j);
    case Success(m) =>
      OptionMapOfAccepts(init);
      OptionMapOfAccepts(options);
      var j :| 0 <= j < n && RepeatsLiveKind(options, j);
      assert j == n - 1;
      assert FirstLiveDuplicate(options, n - 1);
  }

  /** Options that set pairwise different keys are all accepted, each under its own key. */
  lemma DistinctKindsAccepted(options: seq<BigQueryOption>)
    requires forall i, j :: 0 <= i < j < |options| ==> options[i].rpcOption != options[j].rpcOption
    ensures OptionMapOf(options).Success?
    ensures forall i :: 0 <= i < |options| ==>
              options[i].rpcOption in OptionMapOf(options).value &&
              OptionMapOf(options).value[options[i].rpcOption] == options[i].value
    ensures |OptionMapOf(options).value.Keys| <= |options|
  {
    OptionMapOfAccepts(options);
    KindsBound(options);
  }

  /** There are no more keys than options. */
  lemma {:induction false} KindsBound(options: seq<BigQueryOption>)
    ensures |Kinds(options)| <= |options|
  {
    if options != [] {
      KindsBound(options[..|options| - 1]);
      KindsSnoc(options);
    } else {
      assert Kinds(options) == {};
    }
  }

  /**
   * The duplicate check looks only at the value EnumMap.put returns: an option whose
   * key was set before to null is not reported, and the later value is kept.
   */
  lemma NullDuplicateKept(k: RpcOption, v: OptionValue)
    ensures OptionMapOf([BigQueryOption(k, NullValue), BigQueryOption(k, v)]) == Success(map[k := v])
  {
    var options := [BigQueryOption(k, NullValue), BigQueryOption(k, v)];
    assert options[..1] == [BigQueryOption(k, NullValue)];
    assert options[..1][..0] == [];
    assert OptionMapOf(options[..1]) == Success(map[k := NullValue]);
    assert map[k := NullValue][k := v] == map[k := v];
  }

  /** optionMap: the loop over the options that updates one enum map in place. */
  method OptionMap(options: seq<BigQueryOption>) returns (r: Result<RpcOptionMap, BigQueryOption>)
    ensures r == OptionMapOf(options)
  {
    var optionMap: RpcOptionMap := map[];
    for i := 0 to |options|
      invariant OptionMapOf(options[..i]) == Success(optionMap)
    {
      var option := options[i];
      assert options[..i + 1][..i] == options[..i];
      var prev := Previous(optionMap, option.rpcOption);
      optionMap := optionMap[option.rpcOption := option.value];
      if prev != NullValue {
        FailureIsFinal(options, i + 1);
        return Failure(option);
      }
    }
    assert options[..|options|] == options;
    return Success(optionMap);
  }

  /**
   * next holds the options of previous with PageToken bound to cursor, or with no
   * PageToken at all when cursor is null.
   */
  ghost predicate ThreadsCursor(next: RpcOptionMap, previous: RpcOptionMap, cursor: Option<string>)
  {
    && (PageToken in next <==> cursor.Some?)
    && (cursor.Some? ==> next[PageToken] == StringValue(cursor.value))
    && (forall k :: k != PageToken ==> (k in next <==> k in previous))
    && (forall k :: k != PageToken && k in previous ==> next[k] == previous[k])
  }

  /**
   * The request options of a page fetcher (PageImpl.nextRequestOptions, which is not
   * part of this model): an assumed behaviour, stated here rather than verified against
   * its code -- drop any old page token, then put the cursor if it is not null.
   */
  function NextRequestOptions(cursor: Option<string>, optionMap: RpcOptionMap): (r: RpcOptionMap)
    ensures ThreadsCursor(r, optionMap, cursor)
  {
    var rest := optionMap - {PageToken};
    match cursor
    case None => rest
    case Some(c) => rest[PageToken := StringValue(c)]
  }

  /** ThreadsCursor determines the next option map completely. */
  lemma ThreadsCursorUnique(a: RpcOptionMap, b: RpcOptionMap, previous: RpcOptionMap, cursor: Option<string>)
    requires ThreadsCursor(a, previous, cursor) && ThreadsCursor(b, previous, cursor)
    ensures a == b
  {
    assert a.Keys == b.Keys;
  }

  /**
   * Threading a cursor forgets the cursor threaded before it: after any number of pages
   * the request options are the first request's options with the latest cursor.
   */
  lemma ThreadingForgetsEarlierCursor(first: RpcOptionMap, c1: Option<string>, c2: Option<string>)
    ensures NextRequestOptions(c2, NextRequestOptions(c1, first)) == NextRequestOptions(c2, first)
  {
    ThreadsCursorUnique(NextRequestOptions(c2, NextRequestOptions(c1, first)), NextRequestOptions(c2, first), first, c2);
  }
}
