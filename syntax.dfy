/** The parse tree `S` of eval.cpp and its reverse-Polish serialisation
    `S::to_string`. */
module Syntax {

  /** A node: its label (`head`) and its children in order (`rest`). The source
      holds children through shared pointers, but no node is ever shared. */
  datatype S = S(head: string, rest: seq<S>)

  function Leaf(h: string): S {
    S(h, [])
  }

  /** `S::to_string`: every child's serialisation followed by one space, in
      order, then the node's own label. */
  function ToString(t: S): string
    decreases t
  {
    RestString(t.rest) + t.head
  }

  function RestString(cs: seq<S>): string
    decreases cs
  {
    if cs == [] then "" else ToString(cs[0]) + " " + RestString(cs[1..])
  }

  /** The children's part of `to_string` holds at least one space per child,
      and ends with a space when there are children. */
  lemma {:induction false} RestStringSeparators(cs: seq<S>)
    ensures |RestString(cs)| >= |cs|
    ensures multiset(RestString(cs))[' '] >= |cs|
    ensures cs != [] ==> |RestString(cs)| > 0 && RestString(cs)[|RestString(cs)| - 1] == ' '
    decreases cs
  {
    if cs != [] {
      RestStringSeparators(cs[1..]);
      var x, y := ToString(cs[0]), RestString(cs[1..]);
      assert RestString(cs) == x + " " + y;
      assert multiset(x + " " + y) == multiset(x) + multiset(" ") + multiset(y);
    }
  }

  /** `to_string` ends with the node's own label; a node with children holds
      at least one space per child, and a space right before the label. */
  lemma ToStringEndsWithLabel(t: S)
    ensures |ToString(t)| >= |t.head| + |t.rest|
    ensures ToString(t)[|ToString(t)| - |t.head|..] == t.head
    ensures multiset(ToString(t))[' '] >= |t.rest|
    ensures t.rest != [] ==> |ToString(t)| > |t.head| && ToString(t)[|ToString(t)| - |t.head| - 1] == ' '
  {
    RestStringSeparators(t.rest);
    var r := RestString(t.rest);
    assert ToString(t) == r + t.head;
    assert multiset(r + t.head) == multiset(r) + multiset(t.head);
  }

  /** `to_string` of a node with one, two or three children, in terms of the
      children's serialisations. */
  lemma ToStringOfUnary(h: string, a: S)
    ensures ToString(S(h, [a])) == ToString(a) + " " + h
  {
    assert RestString([a]) == ToString(a) + " " + RestString([]);
  }

  lemma ToStringOfBinary(h: string, a: S, b: S)
    ensures ToString(S(h, [a, b])) == ToString(a) + " " + ToString(b) + " " + h
  {
    assert [a, b][1..] == [b];
    assert RestString([b]) == ToString(b) + " " + RestString([]);
  }

  lemma ToStringOfTernary(h: string, a: S, b: S, c: S)
    ensures ToString(S(h, [a, b, c])) == ToString(a) + " " + ToString(b) + " " + ToString(c) + " " + h
  {
    assert [a, b, c][1..] == [b, c];
    assert [b, c][1..] == [c];
    var x, y, z := ToString(a), ToString(b), ToString(c);
    assert RestString([c]) == z + " ";
    assert RestString([b, c]) == y + " " + (z + " ");
    assert RestString([a, b, c]) == x + " " + (y + " " + (z + " "));
  }

  /** One entry of a tree's post-order listing: a node's label and its number of children. */
  datatype RpnItem = RpnItem(name: string, arity: nat)

  /** The nodes of `t` in post-order: the children's listings in order, then `t` itself. */
  function Rpn(t: S): (items: seq<RpnItem>)
    ensures |items| > 0 && items[|items| - 1] == RpnItem(t.head, |t.rest|)
    decreases t
  {
    RestRpn(t.rest) + [RpnItem(t.head, |t.rest|)]
  }

  function RestRpn(cs: seq<S>): seq<RpnItem>
    decreases cs
  {
    if cs == [] then [] else Rpn(cs[0]) + RestRpn(cs[1..])
  }

  /** The labels of `items`, separated by single spaces. */
  function JoinLabels(items: seq<RpnItem>): string {
    if items == [] then ""
    else if |items| == 1 then items[0].name
    else items[0].name + " " + JoinLabels(items[1..])
  }

  lemma {:induction false} JoinLabelsAppend(a: seq<RpnItem>, b: seq<RpnItem>)
    requires a != [] && b != []
    ensures JoinLabels(a + b) == JoinLabels(a) + " " + JoinLabels(b)
    decreases |a|
  {
    if |a| == 1 {
      assert (a + b)[1..] == b;
    } else {
      JoinLabelsAppend(a[1..], b);
      assert (a + b)[1..] == a[1..] + b;
    }
  }

  /** `to_string` is reverse-Polish order: the labels of the post-order
      listing, separated by single spaces. */
  lemma {:induction false} ToStringIsPostOrder(t: S)
    ensures ToString(t) == JoinLabels(Rpn(t))
    decreases t
  {
    RestStringIsPostOrder(t.rest, RpnItem(t.head, |t.rest|));
  }

  lemma {:induction false} RestStringIsPostOrder(cs: seq<S>, last: RpnItem)
    ensures RestString(cs) + last.name == JoinLabels(RestRpn(cs) + [last])
    decreases cs
  {
    if cs != [] {
      ToStringIsPostOrder(cs[0]);
      RestStringIsPostOrder(cs[1..], last);
      JoinLabelsAppend(Rpn(cs[0]), RestRpn(cs[1..]) + [last]);
      assert RestRpn(cs) + [last] == Rpn(cs[0]) + (RestRpn(cs[1..]) + [last]);
    }
  }

  /** A reverse-Polish reader that knows each label's arity: every item pops
      that many trees off the stack and pushes the node built from them. It
      fails when the stack holds too few trees. */
  function Rebuild(items: seq<RpnItem>, stack: seq<S>): Option<seq<S>>
    decreases |items|
  {
    if items == [] then Some(stack)
    else if items[0].arity > |stack| then None
    else
      var k := |stack| - items[0].arity;
      Rebuild(items[1..], stack[..k] + [S(items[0].name, stack[k..])])
  }

  datatype Option<T> = None | Some(value: T)

  /** Reading a tree's post-order listing pushes exactly that tree. */
  lemma {:induction false} RebuildRpn(t: S, more: seq<RpnItem>, stack: seq<S>)
    ensures Rebuild(Rpn(t) + more, stack) == Rebuild(more, stack + [t])
    decreases t
  {
    var top := RpnItem(t.head, |t.rest|);
    assert Rpn(t) + more == RestRpn(t.rest) + ([top] + more);
    RebuildRestRpn(t.rest, [top] + more, stack);
    var st := stack + t.rest;
    assert ([top] + more)[1..] == more;
    assert st[..|stack|] == stack && st[|stack|..] == t.rest;
  }

  lemma {:induction false} RebuildRestRpn(cs: seq<S>, more: seq<RpnItem>, stack: seq<S>)
    ensures Rebuild(RestRpn(cs) + more, stack) == Rebuild(more, stack + cs)
    decreases cs
  {
    if cs == [] {
      assert RestRpn(cs) + more == more;
      assert stack + cs == stack;
    } else {
      assert RestRpn(cs) + more == Rpn(cs[0]) + (RestRpn(cs[1..]) + more);
      RebuildRpn(cs[0], RestRpn(cs[1..]) + more, stack);
      RebuildRestRpn(cs[1..], more, stack + [cs[0]]);
      assert stack + [cs[0]] + cs[1..] == stack + cs;
    }
  }

  /** The serialisation loses nothing once arities are known: reading the
      post-order listing back gives the original tree. */
  lemma RpnRoundTrip(t: S)
    ensures Rebuild(Rpn(t), []) == Some([t])
  {
    RebuildRpn(t, [], []);
    assert Rpn(t) + [] == Rpn(t);
    assert [] + [t] == [t];
  }

  /** The labels of the leaves of `t`, left to right. */
  function Leaves(t: S): seq<string>
    decreases t
  {
    if t.rest == [] then [t.head] else RestLeaves(t.rest)
  }

  function RestLeaves(cs: seq<S>): seq<string>
    decreases cs
  {
    if cs == [] then [] else Leaves(cs[0]) + RestLeaves(cs[1..])
  }
}
