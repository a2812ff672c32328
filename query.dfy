/** The address a checkout step navigates to, and the reading of its query
    string on the next page (a simplified `URLSearchParams`: no percent or
    `+` decoding). */
module Query {
  import opened Shared

  /** Characters that need no escaping in a query value and are not
      separators. */
  predicate IsPlainChar(c: char) {
    ('a' <= c <= 'z') || ('A' <= c <= 'Z') || ('0' <= c <= '9') || c == '-'
  }

  predicate IsPlain(s: string) {
    forall i :: 0 <= i < |s| ==> IsPlainChar(s[i])
  }

  /** Position of the first `c` in `s`, or `|s|` when there is none. */
  function IndexOf(s: string, c: char): (r: nat)
    ensures r <= |s|
    ensures r < |s| ==> s[r] == c
    ensures forall i :: 0 <= i < r ==> s[i] != c
  {
    if s == [] then 0
    else if s[0] == c then 0
    else 1 + IndexOf(s[1..], c)
  }

  /** Splits `s` at every `c`; there is always at least one piece. */
  function Split(s: string, c: char): (r: seq<string>)
    ensures |r| > 0
    ensures forall k :: 0 <= k < |r| ==> c !in r[k]
    decreases |s|
  {
    var i := IndexOf(s, c);
    if i == |s| then [s] else [s[..i]] + Split(s[i + 1..], c)
  }

  /** Glues pieces together with `c` between them. */
  function Join(pieces: seq<string>, c: char): string
  {
    if pieces == [] then []
    else if |pieces| == 1 then pieces[0]
    else pieces[0] + [c] + Join(pieces[1..], c)
  }

  lemma IndexOfAbsent(a: string, c: char)
    requires c !in a
    ensures IndexOf(a, c) == |a|
  {
  }

  lemma IndexOfFirst(a: string, c: char, b: string)
    requires c !in a
    ensures IndexOf(a + [c] + b, c) == |a|
  {
    var s := a + [c] + b;
    assert s[|a|] == c;
    assert forall i :: 0 <= i < |a| ==> s[i] == a[i];
  }

  /** Splitting undoes joining when no piece holds the separator. */
  lemma {:induction false} SplitJoin(pieces: seq<string>, c: char)
    requires |pieces| > 0
    requires forall k :: 0 <= k < |pieces| ==> c !in pieces[k]
    ensures Split(Join(pieces, c), c) == pieces
  {
    if |pieces| == 1 {
      IndexOfAbsent(pieces[0], c);
    } else {
      var a, rest := pieces[0], Join(pieces[1..], c);
      var s := a + [c] + rest;
      IndexOfFirst(a, c, rest);
      assert s[..|a|] == a;
      assert s[|a| + 1..] == rest;
      SplitJoin(pieces[1..], c);
      assert pieces == [a] + pieces[1..];
    }
  }

  /** Joining undoes splitting. */
  lemma {:induction false} JoinSplit(s: string, c: char)
    ensures Join(Split(s, c), c) == s
    decreases |s|
  {
    var i := IndexOf(s, c);
    if i < |s| {
      JoinSplit(s[i + 1..], c);
      var tail := Split(s[i + 1..], c);
      assert Split(s, c) == [s[..i]] + tail;
      assert ([s[..i]] + tail)[1..] == tail;
      assert s == s[..i] + [c] + s[i + 1..];
    }
  }

  /** One `name=value` piece; a piece without `=` is a name with an empty
      value. */
  function ParsePair(piece: string): (string, string)
  {
    var i := IndexOf(piece, '=');
    if i == |piece| then (piece, "") else (piece[..i], piece[i + 1..])
  }

  /** The pairs of a list of pieces, empty pieces skipped. */
  function Pairs(pieces: seq<string>): seq<(string, string)>
  {
    if pieces == [] then []
    else if pieces[0] == "" then Pairs(pieces[1..])
    else [ParsePair(pieces[0])] + Pairs(pieces[1..])
  }

  /** The name/value pairs of a search string, in order; one leading `?`
      is dropped. */
  function Params(search: string): seq<(string, string)>
  {
    var body := if |search| > 0 && search[0] == '?' then search[1..] else search;
    Pairs(Split(body, '&'))
  }

  /** Position of the first pair named `name`, or `|params|` when there is
      none. */
  function Find(params: seq<(string, string)>, name: string): (k: nat)
    ensures k <= |params|
    ensures k < |params| ==> params[k].0 == name
    ensures forall j :: 0 <= j < k ==> params[j].0 != name
  {
    if params == [] then 0
    else if params[0].0 == name then 0
    else 1 + Find(params[1..], name)
  }

  /** `URLSearchParams.get`: the value of the first pair with that name. */
  function Get(params: seq<(string, string)>, name: string): (r: Option<string>)
    ensures r.None? <==> forall k :: 0 <= k < |params| ==> params[k].0 != name
    ensures r.Some? ==> (name, r.value) in params
    ensures r.Some? ==> Find(params, name) < |params| && params[Find(params, name)] == (name, r.value)
  {
    var k := Find(params, name);
    if k == |params| then None else Some(params[k].1)
  }

  /** `params.get(name) || ''`: a missing parameter reads as empty. */
  function ParamOr(search: string, name: string): string
  {
    match Get(Params(search), name)
    case Some(v) => v
    case None => ""
  }

  /** `window.location.search` of an address: from its first `?` on, or
      empty when it has none. */
  function SearchOf(url: string): string
  {
    var i := IndexOf(url, '?');
    if i == |url| then "" else url[i..]
  }

  function Piece(pair: (string, string)): string {
    pair.0 + "=" + pair.1
  }

  function Pieces(pairs: seq<(string, string)>): (r: seq<string>)
    ensures |r| == |pairs|
    ensures forall k :: 0 <= k < |r| ==> r[k] == Piece(pairs[k])
  {
    if pairs == [] then [] else [Piece(pairs[0])] + Pieces(pairs[1..])
  }

  /** A query string `name=value&...` for the given pairs. */
  function Encode(pairs: seq<(string, string)>): string
  {
    Join(Pieces(pairs), '&')
  }

  predicate PlainPair(pair: (string, string)) {
    pair.0 != "" && IsPlain(pair.0) && IsPlain(pair.1)
  }

  lemma PlainHasNoSeparator(s: string, c: char)
    requires IsPlain(s) && !IsPlainChar(c)
    ensures c !in s
  {
  }

  lemma {:induction false} PairsOfPieces(pairs: seq<(string, string)>)
    requires forall k :: 0 <= k < |pairs| ==> PlainPair(pairs[k])
    ensures Pairs(Pieces(pairs)) == pairs
  {
    if pairs != [] {
      var p := pairs[0];
      assert PlainPair(p);
      PlainHasNoSeparator(p.0, '=');
      IndexOfFirst(p.0, '=', p.1);
      var piece := Piece(p);
      assert piece == p.0 + ['='] + p.1;
      assert piece[..|p.0|] == p.0;
      assert piece[|p.0| + 1..] == p.1;
      assert ParsePair(piece) == p;
      PairsOfPieces(pairs[1..]);
      assert Pieces(pairs)[1..] == Pieces(pairs[1..]);
    }
  }

  /** Reading back an encoded query gives the pairs it was built from. */
  lemma {:induction false} ParamsEncode(pairs: seq<(string, string)>)
    requires forall k :: 0 <= k < |pairs| ==> PlainPair(pairs[k])
    ensures Params("?" + Encode(pairs)) == pairs
  {
    var pieces := Pieces(pairs);
    var body := Encode(pairs);
    assert ("?" + body)[1..] == body;
    assert Params("?" + body) == Pairs(Split(body, '&'));
    if pairs == [] {
      assert Split(body, '&') == [""];
    } else {
      forall k | 0 <= k < |pieces|
        ensures '&' !in pieces[k]
      {
        var p := pairs[k];
        assert PlainPair(p);
        PlainHasNoSeparator(p.0, '&');
        PlainHasNoSeparator(p.1, '&');
        assert pieces[k] == p.0 + "=" + p.1;
      }
      SplitJoin(pieces, '&');
    }
    PairsOfPieces(pairs);
  }

  /** The address the recipient step navigates to. */
  function PaymentTarget(serviceId: string, packageId: string, recipient: string): string
  {
    "/payment?service=" + serviceId + "&package=" + packageId + "&recipient=" + recipient
  }

  lemma EncodeThree(a: (string, string), b: (string, string), c: (string, string))
    ensures Encode([a, b, c]) == Piece(a) + ("&" + Piece(b)) + ("&" + Piece(c))
  {
    var x, y, z := Piece(a), Piece(b), Piece(c);
    assert Pieces([a, b, c]) == [x, y, z];
    assert [x, y, z][1..] == [y, z] && [y, z][1..] == [z];
    assert Join([z], '&') == z;
    assert Join([y, z], '&') == y + "&" + z;
  }

  lemma PaymentTargetPieces(serviceId: string, packageId: string, recipient: string)
    ensures PaymentTarget(serviceId, packageId, recipient) ==
            "/payment?" + Piece(("service", serviceId)) + ("&" + Piece(("package", packageId))) +
            ("&" + Piece(("recipient", recipient)))
  {
  }


  lemma PaymentTargetEncodes(serviceId: string, packageId: string, recipient: string)
    ensures PaymentTarget(serviceId, packageId, recipient) ==
            "/payment" + "?" + Encode([("service", serviceId), ("package", packageId), ("recipient", recipient)])
  {
    var x, y, z := Piece(("service", serviceId)), Piece(("package", packageId)), Piece(("recipient", recipient));
    EncodeThree(("service", serviceId), ("package", packageId), ("recipient", recipient));
    PaymentTargetPieces(serviceId, packageId, recipient);
    assert "/payment" + "?" == "/payment?";
    assert "/payment?" + (x + ("&" + y) + ("&" + z)) == "/payment?" + x + ("&" + y) + ("&" + z);
  }

  /** The search part of the continue address is the encoded selection. */
  lemma SearchOfPaymentTarget(serviceId: string, packageId: string, recipient: string)
    ensures SearchOf(PaymentTarget(serviceId, packageId, recipient)) ==
            "?" + Encode([("service", serviceId), ("package", packageId), ("recipient", recipient)])
  {
    var pairs := [("service", serviceId), ("package", packageId), ("recipient", recipient)];
    PaymentTargetEncodes(serviceId, packageId, recipient);
    var url := PaymentTarget(serviceId, packageId, recipient);
    assert url == "/payment" + ['?'] + Encode(pairs);
    IndexOfFirst("/payment", '?', Encode(pairs));
    assert url[8..] == "?" + Encode(pairs);
  }

  /** Round trip: for plain values, the payment step reads back exactly the
      service, package and recipient that the recipient step put in the
      address. */
  lemma PaymentTargetRoundTrip(serviceId: string, packageId: string, recipient: string)
    requires IsPlain(serviceId) && IsPlain(packageId) && IsPlain(recipient)
    ensures var search := SearchOf(PaymentTarget(serviceId, packageId, recipient));
            ParamOr(search, "service") == serviceId &&
            ParamOr(search, "package") == packageId &&
            ParamOr(search, "recipient") == recipient
  {
    var pairs := [("service", serviceId), ("package", packageId), ("recipient", recipient)];
    SearchOfPaymentTarget(serviceId, packageId, recipient);
    assert PlainPair(pairs[0]) && PlainPair(pairs[1]) && PlainPair(pairs[2]);
    ParamsEncode(pairs);
    assert Params(SearchOf(PaymentTarget(serviceId, packageId, recipient))) == pairs;
    assert Find(pairs, "service") == 0;
    assert Find(pairs, "package") == 1;
    assert Find(pairs, "recipient") == 2;
  }
}
