/**
  * Access-control signing of a request: a keyed digest over the values of the
  * request's fields in key order, followed by the body. A `char` stands for one
  * byte of a Go string; the digest itself is a parameter.
  */
module Acl {
  import opened Bytes

  const SIGNATURE := "Signature"
  const ACCESS_KEY := "AccessKey"
  const SECURITY_TOKEN := "SecurityToken"

  // ---------------------------------------------------------------- key order

  predicate Less(a: string, b: string) {
    b != [] && (a == [] || a[0] < b[0] || (a[0] == b[0] && Less(a[1..], b[1..])))
  }

  lemma {:induction false} LessTransitive(a: string, b: string, c: string)
    requires Less(a, b) && Less(b, c)
    ensures Less(a, c)
  {
    if a != [] && a[0] == b[0] == c[0] { LessTransitive(a[1..], b[1..], c[1..]); }
  }

  lemma {:induction false} LessTotal(a: string, b: string)
    ensures Less(a, b) || Less(b, a) || a == b
    ensures !(Less(a, b) && Less(b, a)) && (a == b ==> !Less(a, b))
  {
    if a != [] && b != [] {
      LessTotal(a[1..], b[1..]);
      if a[0] == b[0] && a[1..] == b[1..] { assert a == [a[0]] + a[1..] && b == [b[0]] + b[1..]; }
    }
  }

  ghost predicate Ascending(s: seq<string>) {
    forall i, j :: 0 <= i < j < |s| ==> Less(s[i], s[j])
  }

  ghost function Elements(s: seq<string>): set<string> { set k | k in s }

  ghost predicate Lists(s: seq<string>, keys: set<string>) { Ascending(s) && Elements(s) == keys }

  /** There is only one ascending list of a set of keys. */
  lemma {:induction false} OneListing(a: seq<string>, b: seq<string>, keys: set<string>)
    requires Lists(a, keys) && Lists(b, keys)
    ensures a == b
    decreases |a|
  {
    assert (a != [] ==> a[0] in Elements(a)) && (b != [] ==> b[0] in Elements(b));
    if a == [] {
    } else {
      assert a[0] in Elements(a) && a[0] in b;
      assert b[0] in Elements(b) && b[0] in a;
      if a[0] != b[0] {
        var i :| 0 <= i < |b| && b[i] == a[0];
        var j :| 0 <= j < |a| && a[j] == b[0];
        LessTotal(a[0], b[0]);
      }
      TailLists(a, keys);
      TailLists(b, keys);
      OneListing(a[1..], b[1..], keys - {a[0]});
      assert a == [a[0]] + a[1..] && b == [b[0]] + b[1..];
    }
  }

  lemma TailLists(a: seq<string>, keys: set<string>)
    requires a != [] && Lists(a, keys)
    ensures Lists(a[1..], keys - {a[0]})
  {
    CutLists(a, keys, 0);
    assert a[..0] + a[1..] == a[1..];
  }

  /** Dropping one element of an ascending list lists the other keys. */
  lemma CutLists(a: seq<string>, keys: set<string>, i: nat)
    requires i < |a| && Lists(a, keys)
    ensures Lists(a[..i] + a[i + 1..], keys - {a[i]})
  {
    var rest := a[..i] + a[i + 1..];
    assert a == a[..i] + [a[i]] + a[i + 1..];
    LessTotal(a[i], a[i]);
    forall k ensures k in Elements(rest) <==> k in keys - {a[i]} {
      if k in rest {
        var j :| 0 <= j < |rest| && rest[j] == k;
        assert a[if j < i then j else j + 1] == k;
        assert k in Elements(a);
      }
      if k in keys && k != a[i] { assert k in Elements(a); }
    }
  }

  function Insert(s: seq<string>, k: string): seq<string> {
    if s == [] || Less(k, s[0]) then [k] + s else [s[0]] + Insert(s[1..], k)
  }

  lemma {:induction false} InsertLists(s: seq<string>, keys: set<string>, k: string)
    requires Lists(s, keys) && k !in keys
    ensures Lists(Insert(s, k), keys + {k})
    decreases |s|
  {
    if s == [] {
    } else if Less(k, s[0]) {
      forall j | 1 <= j < |s| ensures Less(k, s[j]) { LessTransitive(k, s[0], s[j]); }
      assert Elements([k] + s) == keys + {k};
    } else {
      assert s[0] in Elements(s);
      LessTotal(k, s[0]);
      TailLists(s, keys);
      var rest := Insert(s[1..], k);
      InsertLists(s[1..], keys - {s[0]}, k);
      forall j | 0 <= j < |rest| ensures Less(s[0], rest[j]) {
        assert rest[j] in Elements(rest);
        if rest[j] != k {
          assert rest[j] in Elements(s[1..]);
          var i :| 1 <= i < |s| && s[i] == rest[j];
        }
      }
      assert Elements([s[0]] + rest) == {s[0]} + Elements(rest);
    }
  }

  /** The keys in ascending order. */
  ghost function Listing(keys: set<string>): seq<string>
    decreases keys
  {
    if keys == {} then [] else
    var k :| k in keys;
    Insert(Listing(keys - {k}), k)
  }

  lemma {:induction false} ListingLists(keys: set<string>)
    ensures Lists(Listing(keys), keys)
    decreases keys
  {
    if keys == {} {
    } else {
      var k :| k in keys && Listing(keys) == Insert(Listing(keys - {k}), k);
      ListingLists(keys - {k});
      InsertLists(Listing(keys - {k}), keys - {k}, k);
      assert keys - {k} + {k} == keys;
    }
  }

  // ---------------------------------------------------------------- the signature

  /** The values of the fields in key order. */
  ghost function Joined(fields: map<string, string>): string {
    ListingLists(fields.Keys);
    Values(fields, Listing(fields.Keys))
  }

  ghost function Values(fields: map<string, string>, order: seq<string>): string
    requires Elements(order) <= fields.Keys
  {
    if order == [] then "" else
    assert order[|order| - 1] in Elements(order);
    Values(fields, order[..|order| - 1]) + fields[order[|order| - 1]]
  }

  /** The fields that enter the signature: the caller's key, and a token only if there is one. */
  function SigningFields(ext: map<string, string>, accessKey: string): map<string, string> {
    (map k | k in ext && k != SIGNATURE && !(k == SECURITY_TOKEN && ext[k] == "") :: ext[k])[ACCESS_KEY := accessKey]
  }

  ghost function Signed(ext: map<string, string>, body: string, accessKey: string, secret: string,
                        mac: (string, string) -> string): map<string, string>
  {
    ext[SIGNATURE := mac(secret, Joined(SigningFields(ext, accessKey)) + body)][ACCESS_KEY := accessKey]
  }

  lemma OneMoreKey(order: seq<string>, k: string)
    requires NoRepeats(order) && k !in Elements(order)
    ensures NoRepeats(order + [k]) && Elements(order + [k]) == Elements(order) + {k}
  {
    assert forall i :: 0 <= i < |order| ==> order[i] in Elements(order);
  }

  method SortKeys(order: seq<string>) returns (s: seq<string>)
    requires NoRepeats(order)
    ensures Lists(s, Elements(order))
  {
    s := [];
    for i := 0 to |order|
      invariant Lists(s, Elements(order[..i]))
    {
      InsertLists(s, Elements(order[..i]), order[i]);
      assert order[..i + 1] == order[..i] + [order[i]];
      assert Elements(order[..i + 1]) == Elements(order[..i]) + {order[i]};
      s := Insert(s, order[i]);
    }
    assert order[..|order|] == order;
  }

  predicate Special(k: string) { k == ACCESS_KEY || k == SECURITY_TOKEN || k == SIGNATURE }

  /** Collects the fields and their keys, visiting the map in any order. */
  method Gather(ext: map<string, string>, accessKey: string) returns (m: map<string, string>, order: seq<string>)
    ensures m == SigningFields(ext, accessKey)
    ensures NoRepeats(order) && Elements(order) == m.Keys
  {
    m, order := map[ACCESS_KEY := accessKey], [ACCESS_KEY];
    if SECURITY_TOKEN in ext && ext[SECURITY_TOKEN] != "" {
      OneMoreKey(order, SECURITY_TOKEN);
      m := m[SECURITY_TOKEN := ext[SECURITY_TOKEN]];
      order := order + [SECURITY_TOKEN];
    }
    assert m == StartFields(ext, accessKey);
    m, order := GatherOthers(ext, m, order);
    forall k ensures k in m <==> k in SigningFields(ext, accessKey) { GatheredAt(ext, accessKey, m, k); }
    forall k | k in m ensures m[k] == SigningFields(ext, accessKey)[k] { GatheredAt(ext, accessKey, m, k); }
  }

  function StartFields(ext: map<string, string>, accessKey: string): map<string, string> {
    if SECURITY_TOKEN in ext && ext[SECURITY_TOKEN] != ""
    then map[ACCESS_KEY := accessKey, SECURITY_TOKEN := ext[SECURITY_TOKEN]]
    else map[ACCESS_KEY := accessKey]
  }

  lemma GatheredAt(ext: map<string, string>, accessKey: string, m: map<string, string>, k: string)
    requires var start := StartFields(ext, accessKey);
      && (k in m <==> k in start || (k in ext && !Special(k)))
      && (k in m ==> m[k] == if k in start then start[k] else ext[k])
    ensures k in m <==> k in SigningFields(ext, accessKey)
    ensures k in m ==> m[k] == SigningFields(ext, accessKey)[k]
  {
  }

  method GatherOthers(ext: map<string, string>, start: map<string, string>, first: seq<string>)
    returns (m: map<string, string>, order: seq<string>)
    requires NoRepeats(first) && Elements(first) == start.Keys && forall k :: k in start ==> Special(k)
    ensures NoRepeats(order) && Elements(order) == m.Keys
    ensures forall k :: k in m <==> k in start || (k in ext && !Special(k))
    ensures forall k :: k in m ==> m[k] == if k in start then start[k] else ext[k]
  {
    m, order := start, first;
    var todo := ext.Keys;
    while todo != {}
      invariant todo <= ext.Keys
      invariant NoRepeats(order) && Elements(order) == m.Keys
      invariant forall k :: k in m <==> k in start || (k in ext && k !in todo && !Special(k))
      invariant forall k :: k in m ==> m[k] == if k in start then start[k] else ext[k]
      decreases todo
    {
      var k :| k in todo;
      todo := todo - {k};
      if !Special(k) {
        OneMoreKey(order, k);
        m := m[k := ext[k]];
        order := order + [k];
      }
    }
  }

  method Concatenate(m: map<string, string>, order: seq<string>) returns (content: string)
    requires Lists(order, m.Keys)
    ensures content == Joined(m)
  {
    ListingLists(m.Keys);
    OneListing(order, Listing(m.Keys), m.Keys);
    content := "";
    for i := 0 to |order|
      invariant Elements(order[..i]) <= m.Keys && content == Values(m, order[..i])
    {
      assert order[i] in Elements(order);
      assert order[..i + 1][..i] == order[..i];
      content := content + m[order[i]];
    }
    assert order[..|order|] == order;
  }

  class Command {
    var ext: Option<map<string, string>>
    const body: string

    constructor (ext: Option<map<string, string>>, body: string)
      ensures this.ext == ext && this.body == body
    {
      this.ext := ext;
      this.body := body;
    }

    ghost function Fields(): map<string, string>
      reads this
    {
      if ext.None? then map[] else ext.value
    }

    method Sign(accessKey: string, secret: string, mac: (string, string) -> string)
      modifies this
      ensures ext == Some(Signed(old(Fields()), body, accessKey, secret, mac))
    {
      if ext.None? { ext := Some(map[]); }
      var m, order := Gather(ext.value, accessKey);
      order := SortKeys(order);
      var content := Concatenate(m, order);
      ext := Some(ext.value[SIGNATURE := mac(secret, content + body)]);
      ext := Some(ext.value[ACCESS_KEY := accessKey]);
    }
  }

  // ---------------------------------------------------------------- laws

  /** Every existing field enters the signature with its value exactly when there is no earlier
      signature, no empty token and no other access key. */
  lemma AllFieldsSignedIff(ext: map<string, string>, accessKey: string)
    ensures (forall k :: k in ext ==> k in SigningFields(ext, accessKey) && SigningFields(ext, accessKey)[k] == ext[k])
       <==> && SIGNATURE !in ext
            && !(SECURITY_TOKEN in ext && ext[SECURITY_TOKEN] == "")
            && (ACCESS_KEY in ext ==> ext[ACCESS_KEY] == accessKey)
  {
    var signed := SigningFields(ext, accessKey);
    assert SIGNATURE !in signed && signed[ACCESS_KEY] == accessKey;
    assert SECURITY_TOKEN in ext && ext[SECURITY_TOKEN] == "" ==> SECURITY_TOKEN !in signed;
  }

  /** Three fields that do not enter: an earlier signature, an empty token, another access key. */
  lemma FieldsNotSigned(prior: string, accessKey: string)
    requires prior != accessKey
    ensures SIGNATURE !in SigningFields(map[SIGNATURE := prior], accessKey)
    ensures SECURITY_TOKEN !in SigningFields(map[SECURITY_TOKEN := ""], accessKey)
    ensures SigningFields(map[ACCESS_KEY := prior], accessKey)[ACCESS_KEY] != prior
  {
    assert SIGNATURE != ACCESS_KEY && SECURITY_TOKEN != ACCESS_KEY;
  }

  /** What an earlier signature or access key left behind does not enter the next signature. */
  lemma OldCredentialsIgnored(ext: map<string, string>, other: map<string, string>, body: string,
                              accessKey: string, secret: string, mac: (string, string) -> string)
    requires ext - {SIGNATURE, ACCESS_KEY} == other - {SIGNATURE, ACCESS_KEY}
    ensures Signed(ext, body, accessKey, secret, mac) == Signed(other, body, accessKey, secret, mac)
  {
    forall k ensures k in SigningFields(ext, accessKey) <==> k in SigningFields(other, accessKey) {
      SigningAt(ext, other, accessKey, k);
    }
    forall k | k in SigningFields(ext, accessKey)
      ensures SigningFields(ext, accessKey)[k] == SigningFields(other, accessKey)[k]
    {
      SigningAt(ext, other, accessKey, k);
    }
    assert SigningFields(ext, accessKey) == SigningFields(other, accessKey);
    SameRest(ext, other, mac(secret, Joined(SigningFields(ext, accessKey)) + body), accessKey);
  }

  lemma SigningAt(ext: map<string, string>, other: map<string, string>, accessKey: string, k: string)
    requires ext - {SIGNATURE, ACCESS_KEY} == other - {SIGNATURE, ACCESS_KEY}
    ensures k in SigningFields(ext, accessKey) <==> k in SigningFields(other, accessKey)
    ensures k in SigningFields(ext, accessKey) ==> SigningFields(ext, accessKey)[k] == SigningFields(other, accessKey)[k]
  {
    assert k in ext - {SIGNATURE, ACCESS_KEY} <==> k in other - {SIGNATURE, ACCESS_KEY};
  }

  lemma SameRest(ext: map<string, string>, other: map<string, string>, signature: string, accessKey: string)
    requires ext - {SIGNATURE, ACCESS_KEY} == other - {SIGNATURE, ACCESS_KEY}
    ensures ext[SIGNATURE := signature][ACCESS_KEY := accessKey] == other[SIGNATURE := signature][ACCESS_KEY := accessKey]
  {
    var a, b := ext[SIGNATURE := signature][ACCESS_KEY := accessKey], other[SIGNATURE := signature][ACCESS_KEY := accessKey];
    forall k ensures (k in a <==> k in b) && (k in a ==> a[k] == b[k]) {
      assert k in ext - {SIGNATURE, ACCESS_KEY} <==> k in other - {SIGNATURE, ACCESS_KEY};
    }
  }

  /** Signing again with the same key pair changes nothing. */
  lemma SignTwice(ext: map<string, string>, body: string, accessKey: string, secret: string,
                  mac: (string, string) -> string)
    ensures var once := Signed(ext, body, accessKey, secret, mac);
      Signed(once, body, accessKey, secret, mac) == once
  {
    var once := Signed(ext, body, accessKey, secret, mac);
    assert once - {SIGNATURE, ACCESS_KEY} == ext - {SIGNATURE, ACCESS_KEY};
    OldCredentialsIgnored(once, ext, body, accessKey, secret, mac);
  }

  /**
    * The signature covers exactly what is sent: joining all sent fields but the
    * signature gives the signed text, also when an empty token was left out.
    */
  lemma SignatureCoversSent(ext: map<string, string>, body: string, accessKey: string, secret: string,
                            mac: (string, string) -> string)
    ensures var sent := Signed(ext, body, accessKey, secret, mac);
      sent[SIGNATURE] == mac(secret, Joined(sent - {SIGNATURE}) + body)
  {
    var sent := Signed(ext, body, accessKey, secret, mac);
    var all, used := sent - {SIGNATURE}, SigningFields(ext, accessKey);
    if SECURITY_TOKEN in ext && ext[SECURITY_TOKEN] == "" {
      assert used == all - {SECURITY_TOKEN};
      EmptyFieldAddsNothing(all, SECURITY_TOKEN);
    } else {
      assert used == all;
    }
  }

  lemma EmptyFieldAddsNothing(fields: map<string, string>, k: string)
    requires k in fields && fields[k] == ""
    ensures Joined(fields - {k}) == Joined(fields)
  {
    var order := Listing(fields.Keys);
    ListingLists(fields.Keys);
    assert k in Elements(order);
    var i :| 0 <= i < |order| && order[i] == k;
    var rest := order[..i] + order[i + 1..];
    CutLists(order, fields.Keys, i);
    ListingLists((fields - {k}).Keys);
    OneListing(rest, Listing((fields - {k}).Keys), fields.Keys - {k});
    ValuesWithout(fields, order, i);
    SameValues(fields, fields - {k}, rest);
  }

  lemma {:induction false} ValuesWithout(fields: map<string, string>, order: seq<string>, i: nat)
    requires i < |order| && Elements(order) <= fields.Keys
    requires fields[(assert order[i] in Elements(order); order[i])] == ""
    ensures Elements(order[..i] + order[i + 1..]) <= fields.Keys
    ensures Values(fields, order[..i] + order[i + 1..]) == Values(fields, order)
  {
    var n := |order| - 1;
    var rest := order[..i] + order[i + 1..];
    forall k | k in rest ensures k in Elements(order) { assert k in order[..i] || k in order[i + 1..]; }
    if i == n {
      assert rest == order[..n];
    } else {
      assert rest[..|rest| - 1] == order[..n][..i] + order[..n][i + 1..];
      assert Elements(order[..n]) <= Elements(order);
      ValuesWithout(fields, order[..n], i);
    }
  }

  lemma {:induction false} SameValues(a: map<string, string>, b: map<string, string>, order: seq<string>)
    requires Elements(order) <= a.Keys && Elements(order) <= b.Keys
    requires forall k :: k in order ==> k in a && k in b && a[k] == b[k]
    ensures Values(a, order) == Values(b, order)
  {
    if order != [] {
      assert order[|order| - 1] in order;
      assert Elements(order[..|order| - 1]) <= Elements(order);
      SameValues(a, b, order[..|order| - 1]);
    }
  }
}
