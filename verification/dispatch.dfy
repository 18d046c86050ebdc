/** What every tool handler of pkg/tools shares: the record of one dispatch, the way a
    remote outcome is turned into a call result, and the `%v` formatting of fmt used in
    confirmation texts. A handler's remote calls are answered by an oracle
    `reply: RemoteCall -> Reply<V>`, and json.MarshalIndent by an oracle
    `marshal: V -> Reply<string>`; Go's `error` return is nil on every path of every
    handler, so it is not part of the model. */
module Dispatch {
  import opened Outcomes
  import opened Api
  import opened Mcp

  /** One dispatch: the remote calls issued, in order, and the single result. */
  datatype Execution = Execution(calls: seq<RemoteCall>, result: ToolResult)

  const InvalidArguments := "Invalid arguments: "

  /** Binding failed: nothing was sent to the remote API and the binder's error is
      reported after "Invalid arguments: ". */
  ghost predicate Rejects(e: Execution, reason: string) {
    e.calls == [] && e.result == Error(InvalidArguments + reason)
  }

  /** A handler that fetches a value issued exactly `call`; it reports the encoded value
      when both the call and the encoding succeeded, otherwise the remote error after
      `failure` or the encoder's error after `marshalFailure`. */
  ghost predicate Serves<V>(e: Execution, call: RemoteCall, reply: RemoteCall -> Reply<V>,
                            marshal: V -> Reply<string>, failure: string, marshalFailure: string)
  {
    && e.calls == [call]
    && match reply(call)
       case Failed(err) => e.result == Error(failure + err)
       case Ok(v) =>
         match marshal(v)
         case Failed(err) => e.result == Error(marshalFailure + err)
         case Ok(json) => e.result == Text(json)
  }

  /** A handler that changes something issued exactly `call`; it reports `confirmation`
      when the call succeeded, otherwise the remote error after `failure`. */
  ghost predicate Confirms<V>(e: Execution, call: RemoteCall, reply: RemoteCall -> Reply<V>,
                              failure: string, confirmation: string)
  {
    && e.calls == [call]
    && match reply(call)
       case Failed(err) => e.result == Error(failure + err)
       case Ok(_) => e.result == Text(confirmation)
  }

  function Reject(reason: string): (e: Execution)
    ensures Rejects(e, reason)
  {
    Execution([], Error(InvalidArguments + reason))
  }

  function Serve<V>(call: RemoteCall, reply: RemoteCall -> Reply<V>, marshal: V -> Reply<string>,
                    failure: string, marshalFailure: string): (e: Execution)
    ensures Serves(e, call, reply, marshal, failure, marshalFailure)
  {
    match reply(call)
    case Failed(err) => Execution([call], Error(failure + err))
    case Ok(v) =>
      match marshal(v)
      case Failed(err) => Execution([call], Error(marshalFailure + err))
      case Ok(json) => Execution([call], Text(json))
  }

  function Confirm<V>(call: RemoteCall, reply: RemoteCall -> Reply<V>, failure: string, confirmation: string): (e: Execution)
    ensures Confirms(e, call, reply, failure, confirmation)
  {
    match reply(call)
    case Failed(err) => Execution([call], Error(failure + err))
    case Ok(_) => Execution([call], Text(confirmation))
  }

  /** A fetching handler answers with text exactly when the remote call and the encoding
      both succeeded, and the text is then the encoder's output. */
  lemma ServedTextOnlyOnSuccess<V>(e: Execution, call: RemoteCall, reply: RemoteCall -> Reply<V>,
                                   marshal: V -> Reply<string>, failure: string, marshalFailure: string)
    requires Serves(e, call, reply, marshal, failure, marshalFailure)
    ensures e.result.Text? <==> reply(call).Ok? && marshal(reply(call).value).Ok?
    ensures e.result.Text? ==> e.result.text == marshal(reply(call).value).value
    ensures reply(call).Failed? ==> e.result == Error(failure + reply(call).err)
  {
  }

  /** A changing handler confirms exactly when its remote call succeeded. */
  lemma ConfirmedOnlyOnSuccess<V>(e: Execution, call: RemoteCall, reply: RemoteCall -> Reply<V>,
                                  failure: string, confirmation: string)
    requires Confirms(e, call, reply, failure, confirmation)
    ensures e.result.Text? <==> reply(call).Ok?
    ensures e.result.Text? ==> e.result.text == confirmation
    ensures reply(call).Failed? ==> e.result == Error(failure + reply(call).err)
  {
  }

  // fmt's %v for the values echoed in confirmation texts

  function FormatBool(b: bool): (s: string)
    ensures s == "true" || s == "false"
    ensures (s == "true") == b
  {
    if b then "true" else "false"
  }

  /** The total number of characters in the elements. */
  function TotalLength(s: seq<string>): nat
    decreases |s|
  {
    if |s| == 0 then 0 else |s[0]| + TotalLength(s[1..])
  }

  /** The elements separated by single spaces: nothing for no elements, and otherwise
      every character of every element plus one space between each two neighbours. */
  function JoinSpace(s: seq<string>): (r: string)
    ensures |s| == 0 ==> r == ""
    ensures |s| > 0 ==> |r| == TotalLength(s) + |s| - 1
    ensures |s| > 0 ==> r[..|s[0]|] == s[0]
    decreases |s|
  {
    if |s| == 0 then ""
    else if |s| == 1 then s[0]
    else s[0] + " " + JoinSpace(s[1..])
  }

  /** %v of a []string: the elements in brackets, separated by single spaces. The
      text opens with `[` and the first element and closes with `]`; the empty list
      gives `[]`. */
  function FormatStrings(s: seq<string>): (r: string)
    ensures |r| == 2 + (if |s| == 0 then 0 else TotalLength(s) + |s| - 1)
    ensures r[0] == '[' && r[|r| - 1] == ']'
    ensures |s| > 0 ==> r[1..1 + |s[0]|] == s[0]
  {
    "[" + JoinSpace(s) + "]"
  }

  /** Joining a concatenation joins the parts with one more space. */
  lemma {:induction false} JoinSpaceAppend(a: seq<string>, b: seq<string>)
    requires a != [] && b != []
    ensures JoinSpace(a + b) == JoinSpace(a) + " " + JoinSpace(b)
    decreases |a|
  {
    if |a| == 1 {
      assert a + b == [a[0]] + b;
      assert (a + b)[1..] == b;
    } else {
      assert (a + b)[1..] == a[1..] + b;
      JoinSpaceAppend(a[1..], b);
    }
  }

  /** What stands before the i-th element in the %v text of `s`. */
  function EchoBefore(s: seq<string>, i: nat): string
    requires i <= |s|
  {
    if i == 0 then "[" else "[" + JoinSpace(s[..i]) + " "
  }

  /** What stands after the i-th element in the %v text of `s`. */
  function EchoAfter(s: seq<string>, i: nat): string
    requires i < |s|
  {
    if i + 1 == |s| then "]" else " " + JoinSpace(s[i + 1..]) + "]"
  }

  /** The %v text of a list shows every element, in order, between the texts of its
      neighbours: the list is echoed unchanged. */
  lemma {:induction false} FormatStringsEchoes(s: seq<string>, i: nat)
    requires i < |s|
    ensures FormatStrings(s) == EchoBefore(s, i) + s[i] + EchoAfter(s, i)
  {
    var tail := if i + 1 == |s| then "" else " " + JoinSpace(s[i + 1..]);
    assert JoinSpace(s[i..]) == s[i] + tail by {
      assert s[i..][0] == s[i] && s[i..][1..] == s[i + 1..];
    }
    assert EchoAfter(s, i) == tail + "]";
    if i == 0 {
      assert s[i..] == s;
      AppendAssociates("[", s[i], tail);
      AppendAssociates("[" + s[i], tail, "]");
    } else {
      assert s == s[..i] + s[i..];
      JoinSpaceAppend(s[..i], s[i..]);
      var head := JoinSpace(s[..i]);
      assert JoinSpace(s) == head + " " + (s[i] + tail);
      AppendAssociates(head + " ", s[i], tail);
      AppendAssociates("[", head + " " + s[i], tail);
      AppendAssociates("[", head + " ", s[i]);
      AppendAssociates("[", head, " ");
      AppendAssociates("[" + head + " " + s[i], tail, "]");
    }
  }
}
