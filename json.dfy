/** `JSON.stringify` of the flat request objects the proxy builds: properties
    holding `undefined` are dropped, the others are written `"key":value` in
    property order, separated by commas, inside braces. Strings are written
    between quotes without escaping. */
module Json {
  import opened JsValues
  import opened JsText

  /** The properties `JSON.stringify` writes: those not holding `undefined`. */
  function Wire(o: Object): (w: Object)
    ensures |w| <= |o|
    ensures forall i :: 0 <= i < |w| ==> w[i].1 != Undefined
    ensures (forall i :: 0 <= i < |o| ==> o[i].1 != Undefined) ==> w == o
  {
    if o == [] then []
    else if o[0].1 == Undefined then Wire(o[1..])
    else [o[0]] + Wire(o[1..])
  }

  /** Serialisation drops exactly the undefined properties: a property
      appears on the wire if and only if the object has it and it is not
      `undefined`. */
  lemma {:induction false} WireKeepsDefined(o: Object)
    ensures forall f :: f in Wire(o) <==> f in o && f.1 != Undefined
  {
    if o != [] {
      WireKeepsDefined(o[1..]);
      assert o == [o[0]] + o[1..];
    }
  }

  function Quote(s: string): string {
    "\"" + s + "\""
  }

  function Value(v: JsValue): string
    requires v != Undefined
  {
    match v
    case Null => "null"
    case Bool(b) => if b then "true" else "false"
    case Num(n) => IntText(n)
    case Str(s) => Quote(s)
    case NumArray(items) => "[" + Numbers(items) + "]"
  }

  function Numbers(items: seq<int>): string {
    if items == [] then ""
    else if |items| == 1 then IntText(items[0])
    else IntText(items[0]) + "," + Numbers(items[1..])
  }

  function Member(f: Field): string
    requires f.1 != Undefined
  {
    Quote(f.0) + ":" + Value(f.1)
  }

  /** The members of an object, comma separated. */
  function Members(w: Object): string
    requires forall i :: 0 <= i < |w| ==> w[i].1 != Undefined
  {
    if w == [] then ""
    else if |w| == 1 then Member(w[0])
    else Member(w[0]) + "," + Members(w[1..])
  }

  /** `JSON.stringify(o)`: always a braced text, never empty and never `null`. */
  function Stringify(o: Object): (text: string)
    ensures |text| >= 2 && text[0] == '{' && text[|text| - 1] == '}'
  {
    "{" + Members(Wire(o)) + "}"
  }

  /** Serialisation distributes over concatenation of objects. */
  lemma {:induction false} WireAppend(a: Object, b: Object)
    ensures Wire(a + b) == Wire(a) + Wire(b)
  {
    if a == [] {
      assert a + b == b;
    } else {
      assert (a + b)[0] == a[0];
      assert (a + b)[1..] == a[1..] + b;
      WireAppend(a[1..], b);
    }
  }

  /** Writing two non-empty member lists one after the other puts exactly one
      comma between them. */
  lemma {:induction false} MembersAppend(a: Object, b: Object)
    requires a != [] && b != []
    requires forall i :: 0 <= i < |a| ==> a[i].1 != Undefined
    requires forall i :: 0 <= i < |b| ==> b[i].1 != Undefined
    ensures Members(a + b) == Members(a) + "," + Members(b)
  {
    assert (a + b)[0] == a[0];
    if |a| == 1 {
      assert (a + b)[1..] == b;
    } else {
      assert (a + b)[1..] == a[1..] + b;
      MembersAppend(a[1..], b);
    }
  }

  /** Appending a possibly empty member list. */
  lemma MembersJoin(a: Object, b: Object)
    requires a != []
    requires forall i :: 0 <= i < |a| ==> a[i].1 != Undefined
    requires forall i :: 0 <= i < |b| ==> b[i].1 != Undefined
    ensures Members(a + b) == Members(a) + (if b == [] then "" else "," + Members(b))
  {
    if b == [] {
      assert a + b == a;
    } else {
      MembersAppend(a, b);
    }
  }

  /** Inserting one member between two member lists, the first non-empty,
      adds exactly a comma and that member to the text. */
  lemma MembersInsert(w: Object, f: Field, t: Object)
    requires w != [] && f.1 != Undefined
    requires forall i :: 0 <= i < |w| ==> w[i].1 != Undefined
    requires forall i :: 0 <= i < |t| ==> t[i].1 != Undefined
    ensures Members(w + t) == Members(w) + (if t == [] then "" else "," + Members(t))
    ensures Members(w + [f] + t) == Members(w) + "," + Member(f) + (if t == [] then "" else "," + Members(t))
  {
    var wf := w + [f];
    assert forall i :: 0 <= i < |wf| ==> wf[i].1 != Undefined by {
      forall i | 0 <= i < |wf| ensures wf[i].1 != Undefined {
        if i < |w| { assert wf[i] == w[i]; } else { assert wf[i] == f; }
      }
    }
    MembersJoin(w, t);
    MembersJoin(wf, t);
    MembersAppend(w, [f]);
  }
}
