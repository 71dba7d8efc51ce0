/** The printed form of a value tree, as encoding/json writes it, and why no two trees share one
    (sections 4 to 7 of RFC 8259). */
module JsonText {
  import opened Outcome
  import opened CanonicalJson

  // ---- Keys in order ----

  predicate Below(a: string, b: string) {
    b != "" && (a == "" || a[0] < b[0] || (a[0] == b[0] && Below(a[1..], b[1..])))
  }

  lemma {:induction false} BelowIsTotal(a: string, b: string)
    ensures a == b || Below(a, b) || Below(b, a)
  {
    if a != "" && b != "" && a[0] == b[0] {
      BelowIsTotal(a[1..], b[1..]);
      assert a == [a[0]] + a[1..] && b == [b[0]] + b[1..];
    }
  }

  lemma {:induction false} BelowIsTransitive(a: string, b: string, c: string)
    requires Below(a, b) && Below(b, c)
    ensures Below(a, c)
  {
    if a != "" && a[0] == b[0] == c[0] {
      BelowIsTransitive(a[1..], b[1..], c[1..]);
    }
  }

  ghost predicate IsLeast(key: string, keys: set<string>) {
    key in keys && forall k | k in keys && k != key :: Below(key, k)
  }

  lemma {:induction false} LeastExists(keys: set<string>)
    requires keys != {}
    ensures exists key :: IsLeast(key, keys)
  {
    var k :| k in keys;
    if keys == {k} {
      assert IsLeast(k, keys);
    } else {
      LeastExists(keys - {k});
      var least :| IsLeast(least, keys - {k});
      BelowIsTotal(k, least);
      var key := if Below(k, least) then k else least;
      forall j | j in keys && j != key ensures Below(key, j) {
        if j != k && j != least && key == k {
          BelowIsTransitive(k, least, j);
        }
      }
      assert IsLeast(key, keys);
    }
  }

  ghost function Least(keys: set<string>): string
    requires keys != {}
    ensures IsLeast(Least(keys), keys)
  {
    LeastExists(keys);
    var key :| IsLeast(key, keys);
    key
  }

  /** The keys of a Go map in the order encoding/json writes them. */
  ghost function SortedKeys(keys: set<string>): (s: seq<string>)
    ensures forall k :: k in s <==> k in keys
    ensures forall i, j | 0 <= i < j < |s| :: Below(s[i], s[j])
  {
    if keys == {} then [] else
    var least := Least(keys);
    [least] + SortedKeys(keys - {least})
  }

  // ---- Strings ----

  function Hex(n: nat): char
    requires n < 16
  {
    if n < 10 then '0' + n as char else 'a' + (n - 10) as char
  }

  function Unicode(n: nat): string
    requires n < 0x10000
  {
    ['\\', 'u', Hex(n / 16 / 16 / 16), Hex(n / 16 / 16 % 16), Hex(n / 16 % 16), Hex(n % 16)]
  }

  /** Characters that are escaped with a letter. */
  function Letter(c: char): Option<char> {
    match c
    case '\"' => Some('\"')
    case '\\' => Some('\\')
    case '\U{08}' => Some('b')
    case '\U{0C}' => Some('f')
    case '\n' => Some('n')
    case '\r' => Some('r')
    case '\t' => Some('t')
    case _ => None
  }

  /** The other characters that are not written as they are: controls, those HTML would misread, and the two
      line separators. */
  predicate ByCode(c: char) {
    c < ' ' || c == '<' || c == '>' || c == '&' || c == '\U{2028}' || c == '\U{2029}'
  }

  function Escape(c: char): (s: string)
    ensures s != "" && s[0] != '\"'
  {
    if Letter(c).Some? then ['\\', Letter(c).value]
    else if ByCode(c) then Unicode(c as int)
    else [c]
  }

  function Escaped(s: string): string {
    if s == "" then "" else Escape(s[0]) + Escaped(s[1..])
  }

  function Quoted(s: string): string {
    "\"" + Escaped(s) + "\""
  }

  lemma HexInjective(a: nat, b: nat)
    requires a < 16 && b < 16 && Hex(a) == Hex(b)
    ensures a == b
  {
  }

  /** Equal quotients and remainders by 16 make equal numbers. */
  lemma SameBySixteen(n: nat, m: nat)
    requires n / 16 == m / 16 && n % 16 == m % 16
    ensures n == m
  {
    assert n == n / 16 * 16 + n % 16 && m == m / 16 * 16 + m % 16;
  }

  lemma UnicodeInjective(n: nat, m: nat)
    requires n < 0x10000 && m < 0x10000 && Unicode(n) == Unicode(m)
    ensures n == m
  {
    var s, t := Unicode(n), Unicode(m);
    assert s[2] == t[2] && s[3] == t[3] && s[4] == t[4] && s[5] == t[5];
    HexInjective(n / 16 / 16 / 16, m / 16 / 16 / 16);
    HexInjective(n / 16 / 16 % 16, m / 16 / 16 % 16);
    HexInjective(n / 16 % 16, m / 16 % 16);
    HexInjective(n % 16, m % 16);
    SameBySixteen(n / 16 / 16, m / 16 / 16);
    SameBySixteen(n / 16, m / 16);
    SameBySixteen(n, m);
  }

  lemma SamePrefix(a: string, r: string, b: string, q: string)
    requires a + r == b + q && |a| == |b|
    ensures a == b && r == q
  {
    assert a == (a + r)[..|a|] && b == (b + q)[..|b|];
    assert r == (a + r)[|a|..] && q == (b + q)[|b|..];
  }

  lemma EscapeShape(c: char)
    ensures |Escape(c)| == (if Letter(c).Some? then 2 else if ByCode(c) then 6 else 1)
    ensures Letter(c).Some? ==> Escape(c)[0] == '\\' && Escape(c)[1] == Letter(c).value && Letter(c).value != 'u'
    ensures Letter(c).None? && ByCode(c) ==> Escape(c)[0] == '\\' && Escape(c)[1] == 'u'
    ensures Letter(c).None? && !ByCode(c) ==> Escape(c) == [c] && c != '\\'
  {
  }

  lemma LetterInjective(c: char, d: char)
    requires Letter(c).Some? && Letter(c) == Letter(d)
    ensures c == d
  {
  }

  lemma EscapeInjective(c: char, d: char, r: string, q: string)
    requires Escape(c) + r == Escape(d) + q
    ensures c == d && r == q
  {
    EscapeShape(c);
    EscapeShape(d);
    var s, t := Escape(c) + r, Escape(d) + q;
    assert s[0] == Escape(c)[0] && t[0] == Escape(d)[0];
    assert |Escape(c)| > 1 ==> s[1] == Escape(c)[1];
    assert |Escape(d)| > 1 ==> t[1] == Escape(d)[1];
    assert |Escape(c)| == |Escape(d)|;
    SamePrefix(Escape(c), r, Escape(d), q);
    if Letter(c).Some? {
      LetterInjective(c, d);
    } else if ByCode(c) {
      UnicodeInjective(c as int, d as int);
    }
  }

  lemma {:induction false} QuotedInjective(s: string, t: string, r: string, q: string)
    requires Escaped(s) + "\"" + r == Escaped(t) + "\"" + q
    ensures s == t && r == q
  {
    hide Escape;
    if s == "" || t == "" {
      FirstOfEscaped(s, r);
      FirstOfEscaped(t, q);
      assert s == t == "";
      assert "" + "\"" == "\"";
      SamePrefix("\"", r, "\"", q);
    } else {
      assert Escaped(s) + "\"" + r == Escape(s[0]) + (Escaped(s[1..]) + "\"" + r);
      assert Escaped(t) + "\"" + q == Escape(t[0]) + (Escaped(t[1..]) + "\"" + q);
      EscapeInjective(s[0], t[0], Escaped(s[1..]) + "\"" + r, Escaped(t[1..]) + "\"" + q);
      QuotedInjective(s[1..], t[1..], r, q);
      assert s == [s[0]] + s[1..] && t == [t[0]] + t[1..];
    }
  }

  lemma FirstOfEscaped(s: string, r: string)
    ensures s != "" ==> (Escaped(s) + "\"" + r)[0] != '\"'
    ensures s == "" ==> (Escaped(s) + "\"" + r)[0] == '\"'
  {
  }

  // ---- Values ----

  predicate NumberChar(c: char) {
    '0' <= c <= '9' || c in {'-', '+', '.', 'e', 'E'}
  }

  /** What the decoder yields: every number literal is a number. */
  ghost predicate Decoded(v: Json)
    decreases v
  {
    match v
    case Number(literal) =>
      && literal != "" && (literal[0] == '-' || '0' <= literal[0] <= '9')
      && forall i | 0 <= i < |literal| :: NumberChar(literal[i])
    case Array(items) => forall i | 0 <= i < |items| :: Decoded(items[i])
    case Object(members) => forall key | key in members :: Decoded(members[key])
    case _ => true
  }

  ghost function Print(v: Json): string
    decreases v, 1, 0
  {
    match v
    case Null => "null"
    case Bool(value) => if value then "true" else "false"
    case Number(literal) => literal
    case Str(text) => Quoted(text)
    case Array(items) => "[" + PrintItems(v, 0) + "]"
    case Object(members) => "{" + PrintMembers(v, SortedKeys(members.Keys)) + "}"
  }

  /** The items from the n-th on. */
  ghost function PrintItems(v: Json, n: nat): string
    requires v.Array? && n <= |v.items|
    decreases v, 0, |v.items| - n
  {
    if n == |v.items| then ""
    else if n + 1 == |v.items| then Print(v.items[n])
    else Print(v.items[n]) + "," + PrintItems(v, n + 1)
  }

  ghost function PrintMembers(v: Json, keys: seq<string>): string
    requires v.Object? && forall k | k in keys :: k in v.members
    decreases v, 0, |keys|
  {
    if keys == [] then ""
    else
      var member := Quoted(keys[0]) + ":" + Print(v.members[keys[0]]);
      if |keys| == 1 then member else member + "," + PrintMembers(v, keys[1..])
  }

  /** What may follow a value in a document. */
  predicate Delimited(r: string) {
    r == "" || r[0] in {',', ']', '}'}
  }

  lemma FirstOfPrint(v: Json)
    requires Decoded(v)
    ensures Print(v) != ""
    ensures var c := Print(v)[0];
      match v
      case Null => c == 'n'
      case Bool(b) => c == if b then 't' else 'f'
      case Number(_) => c == '-' || '0' <= c <= '9'
      case Str(_) => c == '\"'
      case Array(_) => c == '['
      case Object(_) => c == '{'
  {
  }

  /** The first character tells what a value is, and is none that closes an array or an object. */
  lemma FirstTells(v: Json, w: Json, r: string, q: string)
    requires Decoded(v) && Decoded(w) && Print(v) + r == Print(w) + q
    ensures v.Null? == w.Null? && v.Bool? == w.Bool? && v.Number? == w.Number?
    ensures v.Str? == w.Str? && v.Array? == w.Array? && v.Object? == w.Object?
    ensures v.Bool? ==> v == w
  {
    hide Print, Decoded;
    FirstOfPrint(v);
    FirstOfPrint(w);
    assert Print(v)[0] == (Print(v) + r)[0] == (Print(w) + q)[0] == Print(w)[0];
  }

  /** A number ends where no number character follows. */
  lemma {:induction false} NumberInjective(s: string, t: string, r: string, q: string)
    requires (forall i | 0 <= i < |s| :: NumberChar(s[i])) && forall i | 0 <= i < |t| :: NumberChar(t[i])
    requires Delimited(r) && Delimited(q) && s + r == t + q
    ensures s == t && r == q
  {
    assert s == "" ==> s + r == r;
    assert t == "" ==> t + q == q;
    assert s != "" ==> (s + r)[0] == s[0] && (s + r)[1..] == s[1..] + r;
    assert t != "" ==> (t + q)[0] == t[0] && (t + q)[1..] == t[1..] + q;
    if s != "" && t != "" {
      NumberInjective(s[1..], t[1..], r, q);
      assert s == [s[0]] + s[1..] && t == [t[0]] + t[1..];
    }
  }

  lemma StripFirst(c: char, s: string, t: string)
    requires [c] + s == [c] + t
    ensures s == t
  {
    SamePrefix([c], s, [c], t);
  }

  lemma TextInjective(s: string, t: string, r: string, q: string)
    requires Quoted(s) + r == Quoted(t) + q
    ensures s == t && r == q
  {
    hide Escaped;
    assert Quoted(s) + r == ['\"'] + (Escaped(s) + "\"" + r);
    assert Quoted(t) + q == ['\"'] + (Escaped(t) + "\"" + q);
    StripFirst('\"', Escaped(s) + "\"" + r, Escaped(t) + "\"" + q);
    QuotedInjective(s, t, r, q);
  }

  /** No printed value is the beginning of another: whatever follows, the value can be told. */
  lemma {:induction false} PrintInjective(v: Json, w: Json, r: string, q: string)
    requires Decoded(v) && Decoded(w) && Delimited(r) && Delimited(q) && Print(v) + r == Print(w) + q
    ensures v == w && r == q
    decreases v, 1, 0
  {
    FirstTells(v, w, r, q);
    match v
    case Null => SamePrefix(Print(v), r, Print(w), q);
    case Bool(_) => SamePrefix(Print(v), r, Print(w), q);
    case Number(literal) => NumberInjective(literal, w.literal, r, q);
    case Str(text) => TextInjective(text, w.text, r, q);
    case Array(_) => ArrayInjective(v, w, r, q);
    case Object(_) => ObjectInjective(v, w, r, q);
  }

  lemma {:induction false} ArrayInjective(v: Json, w: Json, r: string, q: string)
    requires v.Array? && w.Array? && Decoded(v) && Decoded(w) && Print(v) + r == Print(w) + q
    ensures v == w && r == q
    decreases v, 0, |v.items| + 1
  {
    assert Print(v) + r == ['['] + (PrintItems(v, 0) + "]" + r);
    assert Print(w) + q == ['['] + (PrintItems(w, 0) + "]" + q);
    StripFirst('[', PrintItems(v, 0) + "]" + r, PrintItems(w, 0) + "]" + q);
    ItemsInjective(v, w, 0, r, q);
    assert v.items[0..] == v.items && w.items[0..] == w.items;
  }

  lemma {:induction false} ObjectInjective(v: Json, w: Json, r: string, q: string)
    requires v.Object? && w.Object? && Decoded(v) && Decoded(w) && Print(v) + r == Print(w) + q
    ensures v == w && r == q
    decreases v, 0, |SortedKeys(v.members.Keys)| + 1
  {
    hide Decoded, Print, PrintMembers, SortedKeys;
    var vs, ws := SortedKeys(v.members.Keys), SortedKeys(w.members.Keys);
    PrintOfObject(v, r);
    PrintOfObject(w, q);
    StripFirst('{', PrintMembers(v, vs) + "}" + r, PrintMembers(w, ws) + "}" + q);
    MembersInjective(v, w, vs, ws, r, q);
    SameMaps(v.members, w.members);
  }

  lemma PrintOfObject(v: Json, r: string)
    requires v.Object?
    ensures Print(v) + r == ['{'] + (PrintMembers(v, SortedKeys(v.members.Keys)) + "}" + r)
  {
    hide PrintMembers, SortedKeys;
  }

  lemma SameMaps(m: map<string, Json>, n: map<string, Json>)
    requires SortedKeys(m.Keys) == SortedKeys(n.Keys) && forall k | k in SortedKeys(m.Keys) && k in n :: m[k] == n[k]
    ensures m == n
  {
    assert forall k :: k in m.Keys <==> k in n.Keys;
    assert forall k | k in m :: k in SortedKeys(m.Keys);
  }

  /** What follows the n-th item. */
  ghost function AfterItem(v: Json, n: nat, r: string): string
    requires v.Array? && n < |v.items|
  {
    if n + 1 == |v.items| then "]" + r else "," + (PrintItems(v, n + 1) + "]" + r)
  }

  lemma ItemsSplit(v: Json, n: nat, r: string)
    requires v.Array? && Decoded(v) && n < |v.items|
    ensures PrintItems(v, n) + "]" + r == Print(v.items[n]) + AfterItem(v, n, r)
    ensures Delimited(AfterItem(v, n, r)) && AfterItem(v, n, r)[0] == if n + 1 == |v.items| then ']' else ','
    ensures (PrintItems(v, n) + "]" + r)[0] != ']' && Decoded(v.items[n])
  {
    assert Decoded(v.items[n]);
    hide Print, Decoded;
    FirstOfPrint(v.items[n]);
    assert (Print(v.items[n]) + AfterItem(v, n, r))[0] == Print(v.items[n])[0];
  }

  lemma NoItems(v: Json, r: string)
    requires v.Array?
    ensures PrintItems(v, |v.items|) + "]" + r == [']'] + r
  {
  }

  lemma {:induction false} ItemsInjective(v: Json, w: Json, n: nat, r: string, q: string)
    requires v.Array? && w.Array? && n <= |v.items| && n <= |w.items| && Decoded(v) && Decoded(w)
    requires PrintItems(v, n) + "]" + r == PrintItems(w, n) + "]" + q
    ensures v.items[n..] == w.items[n..] && r == q
    decreases v, 0, |v.items| - n
  {
    hide Print, Decoded, PrintItems;
    if n < |v.items| { ItemsSplit(v, n, r); } else { NoItems(v, r); }
    if n < |w.items| { ItemsSplit(w, n, q); } else { NoItems(w, q); }
    if n == |v.items| || n == |w.items| {
      assert n == |v.items| == |w.items|;
      StripFirst(']', r, q);
    } else {
      PrintInjective(v.items[n], w.items[n], AfterItem(v, n, r), AfterItem(w, n, q));
      assert n + 1 == |v.items| <==> n + 1 == |w.items|;
      if n + 1 == |v.items| {
        StripFirst(']', r, q);
      } else {
        StripFirst(',', PrintItems(v, n + 1) + "]" + r, PrintItems(w, n + 1) + "]" + q);
        ItemsInjective(v, w, n + 1, r, q);
        assert v.items[n..] == [v.items[n]] + v.items[n + 1..] && w.items[n..] == [w.items[n]] + w.items[n + 1..];
      }
    }
  }

  /** What follows the first of the members. */
  ghost function AfterMember(v: Json, keys: seq<string>, r: string): string
    requires v.Object? && keys != [] && forall k | k in keys :: k in v.members
  {
    if |keys| == 1 then "}" + r else "," + (PrintMembers(v, keys[1..]) + "}" + r)
  }

  lemma MembersSplit(v: Json, keys: seq<string>, r: string)
    requires v.Object? && keys != [] && forall k | k in keys :: k in v.members
    ensures PrintMembers(v, keys) + "}" + r ==
      Quoted(keys[0]) + (":" + (Print(v.members[keys[0]]) + AfterMember(v, keys, r)))
    ensures Delimited(AfterMember(v, keys, r)) && AfterMember(v, keys, r)[0] == if |keys| == 1 then '}' else ','
    ensures (PrintMembers(v, keys) + "}" + r)[0] == '\"'
    ensures Decoded(v) ==> Decoded(v.members[keys[0]])
  {
    hide Print, Escaped;
    var name, value := Quoted(keys[0]), Print(v.members[keys[0]]);
    var rest := if |keys| == 1 then "" else PrintMembers(v, keys[1..]);
    Regroup(name, value, rest, r, |keys| == 1);
  }

  lemma Regroup(name: string, value: string, rest: string, r: string, last: bool)
    ensures (if last then name + ":" + value else name + ":" + value + "," + rest) + "}" + r
      == name + (":" + (value + (if last then "}" + r else "," + (rest + "}" + r))))
  {
    if last {
      assert name + ":" + value + "}" + r == name + (":" + (value + ("}" + r)));
    } else {
      assert name + ":" + value + "," + rest + "}" + r == name + (":" + (value + ("," + (rest + "}" + r))));
    }
  }

  lemma NoMembers(v: Json, r: string)
    requires v.Object?
    ensures PrintMembers(v, []) + "}" + r == ['}'] + r
  {
  }

  lemma {:induction false} MembersInjective(v: Json, w: Json, vs: seq<string>, ws: seq<string>, r: string, q: string)
    requires v.Object? && w.Object? && Decoded(v) && Decoded(w)
    requires (forall k | k in vs :: k in v.members) && forall k | k in ws :: k in w.members
    requires PrintMembers(v, vs) + "}" + r == PrintMembers(w, ws) + "}" + q
    ensures vs == ws && r == q && forall k | k in vs :: v.members[k] == w.members[k]
    decreases v, 0, |vs|
  {
    hide Print, Decoded, PrintMembers, Quoted;
    if vs != [] { MembersSplit(v, vs, r); } else { NoMembers(v, r); }
    if ws != [] { MembersSplit(w, ws, q); } else { NoMembers(w, q); }
    if vs == [] || ws == [] {
      assert vs == ws == [];
      StripFirst('}', r, q);
    } else {
      FirstMember(v, w, vs, ws, r, q);
      assert |vs| == 1 <==> |ws| == 1;
      if |vs| == 1 {
        StripFirst('}', r, q);
        assert vs == [vs[0]] && ws == [ws[0]];
      } else {
        StripFirst(',', PrintMembers(v, vs[1..]) + "}" + r, PrintMembers(w, ws[1..]) + "}" + q);
        MembersInjective(v, w, vs[1..], ws[1..], r, q);
        assert vs == [vs[0]] + vs[1..] && ws == [ws[0]] + ws[1..];
      }
    }
  }

  lemma {:induction false} FirstMember(v: Json, w: Json, vs: seq<string>, ws: seq<string>, r: string, q: string)
    requires v.Object? && w.Object? && Decoded(v) && Decoded(w) && vs != [] && ws != []
    requires (forall k | k in vs :: k in v.members) && forall k | k in ws :: k in w.members
    requires PrintMembers(v, vs) + "}" + r == PrintMembers(w, ws) + "}" + q
    ensures vs[0] == ws[0] && v.members[vs[0]] == w.members[ws[0]] && AfterMember(v, vs, r) == AfterMember(w, ws, q)
    decreases v, 0, 0
  {
    hide Print, Decoded, PrintMembers, Quoted, AfterMember;
    MembersSplit(v, vs, r);
    MembersSplit(w, ws, q);
    var x, y := Print(v.members[vs[0]]) + AfterMember(v, vs, r), Print(w.members[ws[0]]) + AfterMember(w, ws, q);
    TextInjective(vs[0], ws[0], ":" + x, ":" + y);
    StripFirst(':', x, y);
    PrintInjective(v.members[vs[0]], w.members[ws[0]], AfterMember(v, vs, r), AfterMember(w, ws, q));
  }

  // ---- The hashed bytes ----

  /** A request body: nothing but space, not JSON, one value, or one value and the first character after it that
      is not a space. */
  datatype Document = Empty | Malformed | Single(value: Json) | Trailing(value: Json, next: char)

  /** decoder.More: a bracket that closes nothing counts as the end. */
  predicate More(document: Document) {
    document.Trailing? && document.next != ']' && document.next != '}'
  }

  /** CanonicalJSON. */
  ghost function CanonicalText(document: Document): Result<string> {
    if document.Empty? then Err(EmptyPayload)
    else if document.Malformed? || More(document) then Err(InvalidPayload)
    else if !document.value.Object? then Err(PayloadNotObject)
    else
      var business := CanonicalMembers(document.value, true);
      if business == map[] then Err(NoBusinessFields) else Ok(Print(Object(business)))
  }

  /** Something after the value is refused, as the comment of the source promises, if and only if it does not
      begin with a closing bracket; a value with one behind it is taken for the value alone. */
  lemma TrailingIsRefusedIff(v: Json, next: char)
    ensures var r := CanonicalText(Trailing(v, next));
      if next == ']' || next == '}' then r == CanonicalText(Single(v)) && r != Err(InvalidPayload)
      else r == Err(InvalidPayload)
  {
  }

  lemma {:induction false} CanonicalStaysDecoded(v: Json)
    requires Decoded(v)
    ensures Decoded(Canonical(v))
    decreases v, 1
  {
    match v
    case Object(_) => MembersStayDecoded(v, false);
    case Array(items) =>
      forall i | 0 <= i < |items| ensures Decoded(Canonical(items[i])) {
        CanonicalStaysDecoded(items[i]);
      }
    case _ =>
  }

  lemma {:induction false} MembersStayDecoded(v: Json, top: bool)
    requires Decoded(v) && v.Object?
    ensures Decoded(Object(CanonicalMembers(v, top)))
    decreases v, 0
  {
    forall key | key in CanonicalMembers(v, top) ensures Decoded(CanonicalMembers(v, top)[key]) {
      CanonicalStaysDecoded(v.members[key]);
    }
  }

  /** Two accepted objects have the same canonical text exactly when they agree after dropping null members at
      every depth and transport fields at the top. */
  lemma SameTextIffSameOperation(x: Json, y: Json)
    requires x.Object? && y.Object? && Decoded(x) && Decoded(y)
    requires CanonicalText(Single(x)).Ok? && CanonicalText(Single(y)).Ok?
    ensures CanonicalText(Single(x)) == CanonicalText(Single(y)) <==> SameMembers(x, y, true)
  {
    hide Decoded, Print, SameMembers, CanonicalMembers;
    MembersIffSame(x, y, true);
    MembersStayDecoded(x, true);
    MembersStayDecoded(y, true);
    var v, w := Object(CanonicalMembers(x, true)), Object(CanonicalMembers(y, true));
    if Print(v) == Print(w) {
      assert Print(v) + "" == Print(w) + "";
      PrintInjective(v, w, "", "");
    }
  }

  /** The canonical text of a canonical form is the same text. */
  lemma CanonicalTextIsIdempotent(x: Json)
    requires CanonicalText(Single(x)).Ok?
    ensures CanonicalText(Single(Object(CanonicalMembers(x, true)))) == CanonicalText(Single(x))
  {
    MembersAreIdempotent(x, true);
  }

  // ---- What the hash ignores, by name ----

  /** A transport name in lower case. */
  predicate IsEnvelopeName(name: string) {
    || name == "idempotencykey" || name == "messageid" || name == "messagegroupid"
    || name == "messagededuplicationid" || name == "sequencenumber" || name == "receipthandle" || name == "type"
    || name == "occurredat" || name == "sentat" || name == "timestamp" || name == "requestid"
    || name == "correlationid" || name == "traceid"
  }

  /** c is read as the lower-case letter d: it is d, or the ASCII capital of d, or one of the two other characters
      that become an ASCII letter in lower case, the Kelvin sign and the dotted capital I. */
  predicate ReadAs(c: char, d: char) {
    || c == d
    || ('a' <= d <= 'z' && c as int == d as int - 32)
    || (c == '\U{212A}' && d == 'k') || (c == '\U{130}' && d == 'i')
  }

  /** The key is the name, whatever the case of its letters. */
  predicate Matches(key: string, name: string) {
    |key| == |name| && forall i | 0 <= i < |key| :: ReadAs(key[i], name[i])
  }

  /** The key belongs to the envelope. */
  ghost predicate IsEnvelope(key: string) {
    exists name :: IsEnvelopeName(name) && Matches(key, name)
  }

  lemma LowerIs(c: char, d: char)
    requires 'a' <= d <= 'z'
    ensures Lower(c) == d <==> ReadAs(c, d)
  {
  }

  lemma NameIsLower(name: string)
    requires IsEnvelopeName(name)
    ensures name in TRANSPORT_FIELDS && forall i | 0 <= i < |name| :: 'a' <= name[i] <= 'z'
  {
  }

  /** The transport fields are the thirteen names, in any letter case. */
  lemma TransportIff(key: string)
    ensures IsTransportField(key) <==> IsEnvelope(key)
  {
    hide TRANSPORT_FIELDS, IsEnvelopeName, Lower, ReadAs;
    var lower := ToLower(key);
    if IsTransportField(key) {
      FieldIsName(lower);
      NameIsLower(lower);
      forall i | 0 <= i < |key| ensures ReadAs(key[i], lower[i]) {
        LowerIs(key[i], lower[i]);
      }
      assert Matches(key, lower);
    }
    if name :| IsEnvelopeName(name) && Matches(key, name) {
      NameIsLower(name);
      forall i | 0 <= i < |key| ensures lower[i] == name[i] {
        LowerIs(key[i], name[i]);
      }
      assert lower == name;
    }
  }

  lemma FieldIsName(name: string)
    requires name in TRANSPORT_FIELDS
    ensures IsEnvelopeName(name)
  {
  }

  function With(o: Json, key: string, v: Json): Json
    requires o.Object?
  {
    Object(o.members[key := v])
  }

  function Without(o: Json, key: string): Json
    requires o.Object?
  {
    Object(o.members - {key})
  }

  /** Adding, changing or removing a member of the envelope, or a null member, leaves the canonical text as it is. */
  lemma EnvelopeIsIgnored(o: Json, key: string, v: Json)
    requires o.Object? && (IsEnvelope(key) || v == Null)
    ensures CanonicalText(Single(With(o, key, v))) == CanonicalText(Single(Without(o, key)))
  {
    TransportIff(key);
    hide IsEnvelope, Print, IsTransportField;
    assert CanonicalMembers(With(o, key, v), true) == CanonicalMembers(Without(o, key), true);
  }

  /** Inside a value only null members are ignored, those with a name of the envelope as any other. */
  lemma NestedNullIsIgnored(o: Json, key: string)
    requires o.Object?
    ensures Canonical(With(o, key, Null)) == Canonical(Without(o, key))
  {
    assert CanonicalMembers(With(o, key, Null), false) == CanonicalMembers(Without(o, key), false);
  }

  /** Two values that are told apart: not the same when null members count as absent. */
  lemma NestedMembersCount(o: Json, key: string, v: Json, w: Json)
    requires o.Object? && !Same(v, w)
    ensures Canonical(With(o, key, v)) != Canonical(With(o, key, w))
  {
    CanonicalIffSame(v, w);
    NullIsItself(v);
    NullIsItself(w);
    var vs, ws := CanonicalMembers(With(o, key, v), false), CanonicalMembers(With(o, key, w), false);
    assert if v == Null then key !in vs else key in vs && vs[key] == Canonical(v);
    assert if w == Null then key !in ws else key in ws && ws[key] == Canonical(w);
    hide CanonicalMembers, Same;
  }

  lemma NullIsItself(v: Json)
    ensures v == Null <==> Canonical(v) == Null
  {
  }

  /** Any other member at the top counts: two values of it that are not the same give two canonical texts. */
  lemma BusinessMembersCount(o: Json, key: string, v: Json, w: Json)
    requires o.Object? && Decoded(With(o, key, v)) && Decoded(With(o, key, w)) && !IsEnvelope(key) && !Same(v, w)
    requires CanonicalText(Single(With(o, key, v))).Ok?
    ensures CanonicalText(Single(With(o, key, v))) != CanonicalText(Single(With(o, key, w)))
  {
    var x, y := With(o, key, v), With(o, key, w);
    TransportIff(key);
    NotSameAtTop(x, y, key);
    hide SameMembers, IsEnvelope, Decoded, With;
    if CanonicalText(Single(y)).Ok? {
      SameTextIffSameOperation(x, y);
    }
  }

  lemma NotSameAtTop(x: Json, y: Json, key: string)
    requires x.Object? && y.Object? && key in x.members && key in y.members && !IsTransportField(key)
    requires !Same(x.members[key], y.members[key])
    ensures !SameMembers(x, y, true)
  {
    hide IsTransportField;
  }

  /** A null item of an array is kept, and so is the order of the items. */
  lemma ItemsCount(xs: seq<Json>, ys: seq<Json>)
    ensures Canonical(Array(xs)) == Canonical(Array(ys)) <==>
      |xs| == |ys| && forall i | 0 <= i < |xs| :: Canonical(xs[i]) == Canonical(ys[i])
  {
    var a, b := Canonical(Array(xs)), Canonical(Array(ys));
    assert forall i | 0 <= i < |xs| :: a.items[i] == Canonical(xs[i]);
    assert forall i | 0 <= i < |ys| :: b.items[i] == Canonical(ys[i]);
  }

  /** Which documents have a canonical text, and which error the others get. */
  lemma CanonicalErrors(document: Document)
    ensures CanonicalText(Empty) == Err(EmptyPayload) && CanonicalText(Malformed) == Err(InvalidPayload)
    ensures document.Single? && !document.value.Object? ==> CanonicalText(document) == Err(PayloadNotObject)
    ensures document.Single? && document.value.Object? ==>
      var m := document.value.members;
      if exists key :: key in m && m[key] != Null && !IsEnvelope(key) then CanonicalText(document).Ok?
      else CanonicalText(document) == Err(NoBusinessFields)
  {
    if document.Single? && document.value.Object? {
      var business := CanonicalMembers(document.value, true);
      forall key ensures IsTransportField(key) <==> IsEnvelope(key) {
        TransportIff(key);
      }
      var m := document.value.members;
      assert forall key :: key in business <==> key in m && m[key] != Null && !IsEnvelope(key);
      assert business == map[] <==> forall key :: key !in business;
      hide IsEnvelope, IsTransportField, Print;
    }
  }

  // ---- The printed form ----

  lemma {:induction false} SortedIsUnique(s: seq<string>, t: seq<string>)
    requires forall k :: k in s <==> k in t
    requires forall i, j | 0 <= i < j < |s| :: Below(s[i], s[j])
    requires forall i, j | 0 <= i < j < |t| :: Below(t[i], t[j])
    ensures s == t
  {
    forall a: string ensures !Below(a, a) {
      NeverBelowItself(a);
    }
    assert s != [] ==> s[0] in s && s[0] in t;
    assert t != [] ==> t[0] in t && t[0] in s;
    if s != [] && t != [] {
      if s[0] != t[0] {
        BelowIsTransitive(s[0], t[0], s[0]);
        assert false;
      }
      assert forall k :: k in s[1..] <==> k in s && k != s[0];
      assert forall k :: k in t[1..] <==> k in t && k != t[0];
      SortedIsUnique(s[1..], t[1..]);
    }
  }

  lemma {:induction false} NeverBelowItself(a: string)
    ensures !Below(a, a)
  {
    if a != "" {
      NeverBelowItself(a[1..]);
    }
  }

  /** Keys that are given in order are printed in that order. */
  lemma KeysInOrder(keys: set<string>, s: seq<string>)
    requires forall k :: k in s <==> k in keys
    requires forall i, j | 0 <= i < j < |s| :: Below(s[i], s[j])
    ensures SortedKeys(keys) == s
  {
    SortedIsUnique(SortedKeys(keys), s);
  }

  /** How each kind of value is printed. */
  lemma PrintedForms(literal: string, text: string, x: Json, y: Json)
    ensures Print(Null) == "null" && Print(Bool(true)) == "true" && Print(Bool(false)) == "false"
    ensures Print(Number(literal)) == literal && Print(Str(text)) == "\"" + Escaped(text) + "\""
    ensures Print(Array([])) == "[]" && Print(Array([x])) == "[" + Print(x) + "]"
    ensures Print(Array([x, y])) == "[" + Print(x) + "," + Print(y) + "]"
  {
    var v, w := Array([x]), Array([x, y]);
    assert v.items[0] == x && w.items[0] == x && w.items[1] == y;
    assert PrintItems(v, 0) == Print(x);
    assert PrintItems(w, 1) == Print(y);
    assert PrintItems(w, 0) == Print(x) + "," + Print(y);
    assert "[" + (Print(x) + "," + Print(y)) + "]" == "[" + Print(x) + "," + Print(y) + "]";
  }

  /** How the characters of a string are printed, one by one. */
  lemma EscapedForms(c: char, rest: string)
    ensures Escaped("") == "" && Escaped([c] + rest) == Escape(c) + Escaped(rest)
    ensures Escape('\"') == "\\\"" && Escape('\\') == "\\\\" && Escape('\n') == "\\n" && Escape('\t') == "\\t"
    ensures Escape('<') == "\\u003c" && Escape('\U{01}') == "\\u0001" && Escape('\U{2028}') == "\\u2028"
    ensures ' ' <= c < '\U{2028}' && c !in {'\"', '\\', '<', '>', '&'} ==> Escape(c) == [c]
  {
    assert ([c] + rest)[1..] == rest;
  }

  lemma Braced(k: string, x: string, l: string, y: string)
    ensures "{" + (k + ":" + x + "," + (l + ":" + y)) + "}" == "{" + k + ":" + x + "," + l + ":" + y + "}"
  {
  }

  /** Two members are printed in the order of their keys, without spaces. */
  lemma PrintedMembers(k: string, l: string, x: Json, y: Json)
    requires Below(k, l)
    ensures Print(Object(map[k := x, l := y])) ==
      "{" + Quoted(k) + ":" + Print(x) + "," + Quoted(l) + ":" + Print(y) + "}"
  {
    NeverBelowItself(k);
    var v := Object(map[k := x, l := y]);
    KeysInOrder(v.members.Keys, [k, l]);
    TwoMembers(v, k, l, x, y);
    hide Below, SortedKeys, PrintMembers, Quoted;
    Braced(Quoted(k), Print(x), Quoted(l), Print(y));
  }

  lemma TwoMembers(v: Json, k: string, l: string, x: Json, y: Json)
    requires v.Object? && k in v.members && l in v.members && v.members[k] == x && v.members[l] == y
    ensures PrintMembers(v, [k, l]) == Quoted(k) + ":" + Print(x) + "," + (Quoted(l) + ":" + Print(y))
  {
    hide Quoted, Print;
    assert [k, l][1..] == [l];
    assert PrintMembers(v, [l]) == Quoted(l) + ":" + Print(y);
  }

  /** Keys are in order by their first difference, a shorter one before its extensions. */
  lemma {:induction false} KeyOrder(prefix: string, c: char, d: char, a: string, b: string)
    ensures c < d ==> Below(prefix + [c] + a, prefix + [d] + b)
    ensures Below(prefix, prefix + [c] + a)
  {
    if prefix == "" {
      assert prefix + [c] + a == [c] + a && prefix + [d] + b == [d] + b;
    } else {
      KeyOrder(prefix[1..], c, d, a, b);
      assert (prefix + [c] + a)[1..] == prefix[1..] + [c] + a && (prefix + [d] + b)[1..] == prefix[1..] + [d] + b;
    }
  }
}
