/** The DNS wire format as the fake-IP server reads and writes it: a parser for one-question queries,
    a printer for A responses, and a reference reading of both after sections 4.1.1 to 4.1.4 of
    RFC 1035. */
module DnsCodec {
  import opened Options
  import opened Network
  import opened Bytes
  import opened FakePool

  const ANSWER_TTL_SECS := 60
  const TYPE_A := 1
  const CLASS_IN := 1

  type u16 = x: int | 0 <= x < 0x1_0000

  datatype Question = Question(name: string, qtype: u16, qclass: u16, end: nat)

  function Be16(hi: byte, lo: byte): u16 {
    256 * hi + lo
  }

  function To16(x: u16): seq<byte> {
    [x / 256, x % 256]
  }

  /** The octets of an address, most significant first. */
  function Octets(ip: Ipv4): seq<byte> {
    [ip / 0x100_0000, ip / 0x1_0000 % 256, ip / 256 % 256, ip % 256]
  }

  // ---- The parser ----

  datatype Labels = Labels(labels: seq<seq<byte>>, end: nat)

  /** The labels from `pos` to the terminating empty label. */
  function ParseLabels(packet: seq<byte>, pos: nat): (r: Option<Labels>)
    ensures r.Some? ==> pos < r.value.end <= |packet|
    decreases |packet| - pos
  {
    if pos >= |packet| then None
    else if packet[pos] == 0 then Some(Labels([], pos + 1))
    else if packet[pos] >= 64 || pos + 1 + packet[pos] > |packet| then None
    else
      var part := packet[pos + 1..pos + 1 + packet[pos]];
      match ParseLabels(packet, pos + 1 + packet[pos])
      case None => None
      case Some(rest) => Some(Labels([part] + rest.labels, rest.end))
  }

  function Join(parts: seq<string>): string {
    if |parts| == 0 then "" else if |parts| == 1 then parts[0] else parts[0] + "." + Join(parts[1..])
  }

  /** What the library's lossy UTF-8 reading and the lower-casing make of the labels. */
  function Names(lossy: seq<byte> -> string, labels: seq<seq<byte>>): seq<string> {
    seq(|labels|, i requires 0 <= i < |labels| => Lower(lossy(labels[i])))
  }

  /** Not a response, a standard query, one question. */
  predicate IsQuery(packet: seq<byte>) {
    |packet| >= 12 && packet[2] < 128 && packet[2] / 8 % 16 == 0 && Be16(packet[4], packet[5]) == 1
  }

  function ParseQuery(packet: seq<byte>, lossy: seq<byte> -> string): (r: Option<Question>)
    ensures r.Some? ==> 17 <= r.value.end <= |packet|
  {
    if !IsQuery(packet) then None
    else
      match ParseLabels(packet, 12)
      case None => None
      case Some(Labels(labels, end)) =>
        if end + 4 > |packet| then None
        else Some(Question(Join(Names(lossy, labels)), Be16(packet[end], packet[end + 1]),
                           Be16(packet[end + 2], packet[end + 3]), end + 4))
  }

  lemma NamesSnoc(lossy: seq<byte> -> string, labels: seq<seq<byte>>, part: seq<byte>)
    ensures Names(lossy, labels + [part]) == Names(lossy, labels) + [Lower(lossy(part))]
  {
  }

  function Prefixed(labels: seq<seq<byte>>, rest: Option<Labels>): Option<Labels> {
    if rest == None then None else Some(Labels(labels + rest.value.labels, rest.value.end))
  }

  lemma PrefixedStep(packet: seq<byte>, pos: nat, labels: seq<seq<byte>>)
    requires pos < |packet| && 0 < packet[pos] < 64 && pos + 1 + packet[pos] <= |packet|
    ensures var next := pos + 1 + packet[pos];
            Prefixed(labels, ParseLabels(packet, pos))
            == Prefixed(labels + [packet[pos + 1..next]], ParseLabels(packet, next))
  {
    var next := pos + 1 + packet[pos];
    var rest := ParseLabels(packet, next);
    if rest.Some? {
      var part := packet[pos + 1..next];
      assert labels + ([part] + rest.value.labels) == (labels + [part]) + rest.value.labels;
    }
  }

  lemma PrefixedNothing(rest: Option<Labels>)
    ensures Prefixed([], rest) == rest
  {
    if rest.Some? {
      assert [] + rest.value.labels == rest.value.labels;
    }
  }

  /** The loop of `parse_query`. */
  method ReadQuery(packet: seq<byte>, lossy: seq<byte> -> string) returns (question: Option<Question>)
    ensures question == ParseQuery(packet, lossy)
  {
    if |packet| < 12 {
      return None;
    }
    var isResponse := packet[2] >= 128;
    var opcode := packet[2] / 8 % 16;
    var qdcount := Be16(packet[4], packet[5]);
    if isResponse || opcode != 0 || qdcount != 1 {
      return None;
    }
    var pos := 12;
    var names: seq<string> := [];
    ghost var labels := [];
    PrefixedNothing(ParseLabels(packet, 12));
    while pos < |packet| && packet[pos] != 0
      invariant 12 <= pos
      invariant names == Names(lossy, labels)
      invariant ParseLabels(packet, 12) == Prefixed(labels, ParseLabels(packet, pos))
      decreases |packet| - pos
    {
      var len := packet[pos];
      if len >= 64 || pos + 1 + len > |packet| {
        return None;
      }
      PrefixedStep(packet, pos, labels);
      var part := packet[pos + 1..pos + 1 + len];
      NamesSnoc(lossy, labels, part);
      names, labels := names + [Lower(lossy(part))], labels + [part];
      pos := pos + 1 + len;
    }
    if pos >= |packet| {
      return None;
    }
    pos := pos + 1;
    assert labels + [] == labels;
    if pos + 4 > |packet| {
      return None;
    }
    question := Some(Question(Join(names), Be16(packet[pos], packet[pos + 1]),
                              Be16(packet[pos + 2], packet[pos + 3]), pos + 4));
  }

  // ---- The case of names ----

  /** The labels as text, as they came. */
  function Texts(lossy: seq<byte> -> string, labels: seq<seq<byte>>): seq<string> {
    seq(|labels|, i requires 0 <= i < |labels| => lossy(labels[i]))
  }

  lemma {:induction false} JoinSameText(xs: seq<string>, ys: seq<string>)
    requires |xs| == |ys|
    requires forall i :: 0 <= i < |xs| ==> SameText(xs[i], ys[i]) && NoCapitals(xs[i])
    ensures SameText(Join(xs), Join(ys)) && NoCapitals(Join(xs))
    decreases |xs|
  {
    if |xs| > 1 {
      JoinSameText(xs[1..], ys[1..]);
      GlueSameText(xs[0], ys[0], Join(xs[1..]), Join(ys[1..]));
    }
  }

  lemma GlueSameText(a: string, b: string, c: string, d: string)
    requires SameText(a, b) && SameText(c, d) && NoCapitals(a) && NoCapitals(c)
    ensures SameText(a + "." + c, b + "." + d) && NoCapitals(a + "." + c)
  {
  }

  predicate NoCapitals(s: string) {
    forall i :: 0 <= i < |s| ==> !Capital(s[i])
  }

  /** The name of an accepted query is that of its labels up to case, and has no capital. */
  lemma NameIsLowered(packet: seq<byte>, lossy: seq<byte> -> string)
    requires ParseQuery(packet, lossy).Some?
    ensures var name := ParseQuery(packet, lossy).value.name;
            NoCapitals(name) && SameText(name, Join(Texts(lossy, ParseLabels(packet, 12).value.labels)))
  {
    var labels := ParseLabels(packet, 12).value.labels;
    forall i | 0 <= i < |labels|
      ensures SameText(Names(lossy, labels)[i], Texts(lossy, labels)[i]) && NoCapitals(Names(lossy, labels)[i])
    {
      LowerMeans(lossy(labels[i]), lossy(labels[i]));
    }
    JoinSameText(Names(lossy, labels), Texts(lossy, labels));
  }

  // ---- The encoder the parser inverts ----

  predicate WireLabels(labels: seq<seq<byte>>) {
    forall i :: 0 <= i < |labels| ==> 1 <= |labels[i]| <= 63
  }

  function EncodeLabels(labels: seq<seq<byte>>): seq<byte>
    requires WireLabels(labels)
  {
    if labels == [] then [0] else [|labels[0]|] + labels[0] + EncodeLabels(labels[1..])
  }

  function EncodeQuery(header: seq<byte>, labels: seq<seq<byte>>, qtype: u16, qclass: u16, trailing: seq<byte>): seq<byte>
    requires WireLabels(labels)
  {
    header + EncodeLabels(labels) + To16(qtype) + To16(qclass) + trailing
  }

  lemma ParseStep(packet: seq<byte>, pos: nat, part: seq<byte>, rest: seq<seq<byte>>, end: nat)
    requires 1 <= |part| <= 63 && pos + 1 + |part| <= |packet|
    requires packet[pos] == |part| && packet[pos + 1..pos + 1 + |part|] == part
    requires ParseLabels(packet, pos + 1 + |part|) == Some(Labels(rest, end))
    ensures ParseLabels(packet, pos) == Some(Labels([part] + rest, end))
  {
  }

  lemma EncodeCons(part: seq<byte>, rest: seq<seq<byte>>)
    requires 1 <= |part| <= 63 && WireLabels(rest)
    ensures WireLabels([part] + rest) && EncodeLabels([part] + rest) == [|part|] + part + EncodeLabels(rest)
  {
    assert ([part] + rest)[1..] == rest;
  }

  lemma ThreeSlices(s: seq<byte>, i: nat, j: nat, k: nat)
    requires i < j <= k <= |s|
    ensures s[i..k] == [s[i]] + s[i + 1..j] + s[j..k]
  {
  }

  lemma SliceOfSlice(s: seq<byte>, i: nat, j: nat, a: nat, b: nat)
    requires i <= j <= |s| && a <= b <= j - i
    ensures s[i..j][a..b] == s[i + a..i + b]
  {
    var t, u := s[i..j][a..b], s[i + a..i + b];
    assert |t| == |u|;
    forall k | 0 <= k < |t|
      ensures t[k] == u[k]
    {
      assert t[k] == s[i..j][a + k] == s[i + (a + k)];
    }
  }

  lemma PartInPlace(packet: seq<byte>, pos: nat, part: seq<byte>, rest: seq<byte>)
    requires 1 <= |part| <= 63 && pos + 1 + |part| + |rest| <= |packet|
    requires packet[pos..pos + 1 + |part| + |rest|] == [|part|] + part + rest
    ensures packet[pos] == |part|
    ensures packet[pos + 1..pos + 1 + |part|] == part
    ensures packet[pos + 1 + |part|..pos + 1 + |part| + |rest|] == rest
  {
    var end := pos + 1 + |part| + |rest|;
    var s := packet[pos..end];
    assert s[0] == packet[pos];
    SliceOfSlice(packet, pos, end, 1, 1 + |part|);
    SliceOfSlice(packet, pos, end, 1 + |part|, 1 + |part| + |rest|);
    assert ([|part|] + part + rest)[1..1 + |part|] == part;
    assert ([|part|] + part + rest)[1 + |part|..1 + |part| + |rest|] == rest;
  }

  /** Wherever encoded labels lie in a packet, they are what the parser reads there. */
  lemma {:induction false} ParseEncodedLabels(packet: seq<byte>, pos: nat, labels: seq<seq<byte>>)
    requires WireLabels(labels) && pos + |EncodeLabels(labels)| <= |packet|
    requires packet[pos..pos + |EncodeLabels(labels)|] == EncodeLabels(labels)
    ensures ParseLabels(packet, pos) == Some(Labels(labels, pos + |EncodeLabels(labels)|))
    decreases |labels|
  {
    if labels == [] {
      assert packet[pos..pos + 1][0] == packet[pos];
    } else {
      var part, rest := labels[0], labels[1..];
      PartInPlace(packet, pos, part, EncodeLabels(rest));
      ParseEncodedLabels(packet, pos + 1 + |part|, rest);
      ParseStep(packet, pos, part, rest, pos + |EncodeLabels(labels)|);
      assert [part] + rest == labels;
    }
  }

  /** Whatever the parser reads as labels is their encoding, byte for byte. */
  lemma {:induction false} ParsedLabelsEncode(packet: seq<byte>, pos: nat)
    requires ParseLabels(packet, pos).Some?
    ensures var Labels(labels, end) := ParseLabels(packet, pos).value;
            WireLabels(labels) && pos < end <= |packet| && packet[pos..end] == EncodeLabels(labels)
    decreases |packet| - pos
  {
    if packet[pos] != 0 {
      var next := pos + 1 + packet[pos];
      ParsedLabelsEncode(packet, next);
      var Labels(rest, end) := ParseLabels(packet, next).value;
      EncodeCons(packet[pos + 1..next], rest);
      ThreeSlices(packet, pos, next, end);
    }
  }

  lemma QueryLabels(header: seq<byte>, labels: seq<seq<byte>>, qtype: u16, qclass: u16, trailing: seq<byte>)
    requires |header| == 12 && WireLabels(labels)
    ensures var packet := EncodeQuery(header, labels, qtype, qclass, trailing);
            ParseLabels(packet, 12) == Some(Labels(labels, 12 + |EncodeLabels(labels)|))
  {
    var packet := EncodeQuery(header, labels, qtype, qclass, trailing);
    assert packet[12..12 + |EncodeLabels(labels)|] == EncodeLabels(labels);
    ParseEncodedLabels(packet, 12, labels);
  }

  /** The four bytes behind the labels. */
  lemma QueryTail(packet: seq<byte>, end: nat, qtype: u16, qclass: u16, trailing: seq<byte>)
    requires end <= |packet| && packet[end..] == To16(qtype) + To16(qclass) + trailing
    ensures end + 4 <= |packet|
    ensures Be16(packet[end], packet[end + 1]) == qtype && Be16(packet[end + 2], packet[end + 3]) == qclass
  {
    var after := packet[end..];
    assert packet[end] == after[0] && packet[end + 1] == after[1] && packet[end + 2] == after[2] && packet[end + 3] == after[3];
  }

  lemma QueryBehindLabels(header: seq<byte>, labels: seq<seq<byte>>, qtype: u16, qclass: u16, trailing: seq<byte>)
    requires |header| == 12 && WireLabels(labels)
    ensures var packet, end := EncodeQuery(header, labels, qtype, qclass, trailing), 12 + |EncodeLabels(labels)|;
            end <= |packet| && packet[end..] == To16(qtype) + To16(qclass) + trailing
  {
  }

  /** Parsing an encoded query recovers the joined lower-cased name, type, class and end offset. */
  lemma QueryRoundTrip(header: seq<byte>, labels: seq<seq<byte>>, qtype: u16, qclass: u16, trailing: seq<byte>,
                       lossy: seq<byte> -> string)
    requires |header| == 12 && IsQuery(header) && WireLabels(labels)
    ensures ParseQuery(EncodeQuery(header, labels, qtype, qclass, trailing), lossy)
         == Some(Question(Join(Names(lossy, labels)), qtype, qclass, 12 + |EncodeLabels(labels)| + 4))
  {
    QueryLabels(header, labels, qtype, qclass, trailing);
    QueryBehindLabels(header, labels, qtype, qclass, trailing);
    QueryTail(EncodeQuery(header, labels, qtype, qclass, trailing), 12 + |EncodeLabels(labels)|, qtype, qclass, trailing);
  }

  /** The parser accepts exactly the encodings of queries, and an accepted question ends between 17 and
      the packet length, so every slice of `build_response` is in range. */
  lemma AcceptedIsEncoded(packet: seq<byte>, lossy: seq<byte> -> string)
    requires ParseQuery(packet, lossy).Some?
    ensures var q, labels := ParseQuery(packet, lossy).value, ParseLabels(packet, 12).value.labels;
            && 17 <= q.end <= |packet| && WireLabels(labels)
            && packet[12..q.end] == EncodeLabels(labels) + To16(q.qtype) + To16(q.qclass)
            && packet == EncodeQuery(packet[..12], labels, q.qtype, q.qclass, packet[q.end..])
  {
    ParsedLabelsEncode(packet, 12);
    var Labels(labels, e) := ParseLabels(packet, 12).value;
    QuestionEncodes(packet, e, labels);
  }

  ghost predicate IsEncodedQuery(packet: seq<byte>) {
    exists header: seq<byte>, labels, qtype: u16, qclass: u16, trailing ::
      |header| == 12 && IsQuery(header) && WireLabels(labels)
      && packet == EncodeQuery(header, labels, qtype, qclass, trailing)
  }

  lemma AcceptsExactlyQueries(packet: seq<byte>, lossy: seq<byte> -> string)
    ensures ParseQuery(packet, lossy).Some? <==> IsEncodedQuery(packet)
  {
    if ParseQuery(packet, lossy).Some? {
      AcceptedIsEncoded(packet, lossy);
      var header := packet[..12];
      assert |header| == 12 && IsQuery(header);
    }
    if IsEncodedQuery(packet) {
      var header: seq<byte>, labels, qtype: u16, qclass: u16, trailing :|
        |header| == 12 && IsQuery(header) && WireLabels(labels)
        && packet == EncodeQuery(header, labels, qtype, qclass, trailing);
      QueryRoundTrip(header, labels, qtype, qclass, trailing, lossy);
    }
  }

  lemma QuestionEncodes(packet: seq<byte>, e: nat, labels: seq<seq<byte>>)
    requires 12 <= e && e + 4 <= |packet| && WireLabels(labels) && packet[12..e] == EncodeLabels(labels)
    ensures var qtype, qclass := Be16(packet[e], packet[e + 1]), Be16(packet[e + 2], packet[e + 3]);
            && packet[12..e + 4] == EncodeLabels(labels) + To16(qtype) + To16(qclass)
            && packet == EncodeQuery(packet[..12], labels, qtype, qclass, packet[e + 4..])
  {
    Pair(packet, e);
    Pair(packet, e + 2);
    Reassemble(packet, 12, e, e + 2, e + 4, EncodeLabels(labels),
               To16(Be16(packet[e], packet[e + 1])), To16(Be16(packet[e + 2], packet[e + 3])));
  }

  /** Two bytes are the big-endian form of the number they are read as. */
  lemma Pair(s: seq<byte>, i: nat)
    requires i + 2 <= |s|
    ensures s[i..i + 2] == To16(Be16(s[i], s[i + 1]))
  {
    var hi: int, lo: int := s[i], s[i + 1];
    assert (256 * hi + lo) / 256 == hi && (256 * hi + lo) % 256 == lo;
  }

  lemma Reassemble(s: seq<byte>, i: nat, j: nat, k: nat, l: nat, x: seq<byte>, y: seq<byte>, z: seq<byte>)
    requires i <= j <= k <= l <= |s| && s[i..j] == x && s[j..k] == y && s[k..l] == z
    ensures s[i..l] == x + y + z
    ensures s == s[..i] + x + y + z + s[l..]
  {
  }

  // ---- Names ----

  predicate DotFree(s: string) {
    forall i :: 0 <= i < |s| ==> s[i] != '.'
  }

  function Split(s: string): seq<string> {
    SplitAt(s, 0)
  }

  /** The dot-separated parts of `s`, the first `k` characters being known dot-free. */
  function SplitAt(s: string, k: nat): seq<string>
    requires k <= |s|
    decreases |s|, |s| - k
  {
    if k == |s| then [s]
    else if s[k] == '.' then [s[..k]] + SplitAt(s[k + 1..], 0)
    else SplitAt(s, k + 1)
  }

  lemma {:induction false} SplitSkips(s: string, t: string, k: nat)
    requires DotFree(s) && k <= |s| && (t == "" || t[0] == '.')
    ensures SplitAt(s + t, k) == if t == "" then [s] else [s] + SplitAt(t[1..], 0)
    decreases |s| - k
  {
    if k < |s| {
      assert (s + t)[k] == s[k];
      SplitSkips(s, t, k + 1);
    } else if t == "" {
      assert s + t == s;
    } else {
      assert (s + t)[..k] == s && (s + t)[k + 1..] == t[1..];
    }
  }

  /** Splitting the joined name at its dots recovers dot-free labels, so no two lists share a name. */
  lemma {:induction false} SplitJoin(parts: seq<string>)
    requires parts != [] && forall i :: 0 <= i < |parts| ==> DotFree(parts[i])
    ensures Split(Join(parts)) == parts
    decreases |parts|
  {
    if |parts| == 1 {
      SplitSkips(parts[0], "", 0);
      assert parts[0] + "" == parts[0];
    } else {
      SplitJoin(parts[1..]);
      var tail := "." + Join(parts[1..]);
      SplitSkips(parts[0], tail, 0);
      assert tail[1..] == Join(parts[1..]);
      assert Join(parts) == parts[0] + tail;
      assert [parts[0]] + parts[1..] == parts;
    }
  }

  lemma {:induction false} SplitPartsDotFree(s: string, k: nat)
    requires k <= |s| && DotFree(s[..k])
    ensures SplitAt(s, k) != [] && forall i :: 0 <= i < |SplitAt(s, k)| ==> DotFree(SplitAt(s, k)[i])
    decreases |s|, |s| - k
  {
    if k == |s| {
      assert s[..k] == s;
    } else if s[k] == '.' {
      SplitPartsDotFree(s[k + 1..], 0);
    } else {
      SplitPartsDotFree(s, k + 1);
    }
  }

  /** Splitting at the dots undoes the joining if and only if no part has a dot. */
  lemma SplitUndoesJoin(parts: seq<string>)
    requires parts != []
    ensures Split(Join(parts)) == parts <==> forall i :: 0 <= i < |parts| ==> DotFree(parts[i])
  {
    if forall i :: 0 <= i < |parts| ==> DotFree(parts[i]) {
      SplitJoin(parts);
    } else {
      SplitPartsDotFree(Join(parts), 0);
    }
  }

  predicate Ascii(part: seq<byte>) {
    forall i :: 0 <= i < |part| ==> part[i] < 128
  }

  function AsString(part: seq<byte>): string
    requires Ascii(part)
  {
    seq(|part|, i requires 0 <= i < |part| => part[i] as char)
  }

  /** A lossy UTF-8 reading leaves ASCII alone. */
  ghost predicate Faithful(lossy: seq<byte> -> string) {
    forall part: seq<byte> :: Ascii(part) ==> lossy(part) == AsString(part)
  }

  lemma LowerKeepsDots(s: string)
    ensures DotFree(Lower(s)) <==> DotFree(s)
  {
    if DotFree(Lower(s)) {
      forall i | 0 <= i < |s|
        ensures s[i] != '.'
      {
        assert Lower(s)[i] == LowerChar(s[i]);
      }
    }
  }

  /** The name of an accepted query gives back its lower-cased labels, split at the dots, if and only if
      no label reads as text with a dot. Only the root, which has no labels, has no parts. */
  lemma NameDeterminesLabels(packet: seq<byte>, lossy: seq<byte> -> string)
    requires ParseQuery(packet, lossy).Some?
    ensures var name, labels := ParseQuery(packet, lossy).value.name, ParseLabels(packet, 12).value.labels;
            if labels == [] then name == ""
            else Split(name) == Names(lossy, labels) <==> forall i :: 0 <= i < |labels| ==> DotFree(lossy(labels[i]))
  {
    var labels := ParseLabels(packet, 12).value.labels;
    if labels != [] {
      SplitUndoesJoin(Names(lossy, labels));
      forall i | 0 <= i < |labels|
        ensures DotFree(Names(lossy, labels)[i]) <==> DotFree(lossy(labels[i]))
      {
        LowerKeepsDots(lossy(labels[i]));
      }
    }
  }

  /** Joining two neighbours with a dot does not change the name. */
  lemma {:induction false} JoinMerge(pre: seq<string>, a: string, b: string, post: seq<string>)
    ensures Join(pre + [a, b] + post) == Join(pre + [a + "." + b] + post)
    decreases |pre|
  {
    var two, one := pre + [a, b] + post, pre + [a + "." + b] + post;
    if pre == [] {
      assert two == [a] + ([b] + post) && one == [a + "." + b] + post;
      assert two[1..] == [b] + post && ([b] + post)[1..] == post && one[1..] == post;
    } else {
      JoinMerge(pre[1..], a, b, post);
      assert two[1..] == pre[1..] + [a, b] + post && one[1..] == pre[1..] + [a + "." + b] + post;
    }
  }

  lemma MergedText(x: seq<byte>, y: seq<byte>, lossy: seq<byte> -> string)
    requires Faithful(lossy) && Ascii(x) && Ascii(y)
    ensures Lower(lossy(x + [46] + y)) == Lower(lossy(x)) + "." + Lower(lossy(y))
  {
    assert Ascii(x + [46] + y);
    assert AsString(x + [46] + y) == AsString(x) + "." + AsString(y);
  }

  lemma NamesAround(pre: seq<seq<byte>>, mid: seq<seq<byte>>, post: seq<seq<byte>>, lossy: seq<byte> -> string)
    ensures Names(lossy, pre + mid + post) == Names(lossy, pre) + Names(lossy, mid) + Names(lossy, post)
  {
  }

  lemma MergedNames(pre: seq<seq<byte>>, x: seq<byte>, y: seq<byte>, post: seq<seq<byte>>, lossy: seq<byte> -> string)
    requires Faithful(lossy) && Ascii(x) && Ascii(y)
    ensures Join(Names(lossy, pre + [x, y] + post)) == Join(Names(lossy, pre + [x + [46] + y] + post))
  {
    NamesAround(pre, [x, y], post, lossy);
    NamesAround(pre, [x + [46] + y], post, lossy);
    MergedText(x, y, lossy);
    JoinMerge(Names(lossy, pre), Lower(lossy(x)), Lower(lossy(y)), Names(lossy, post));
    assert Names(lossy, [x, y]) == [Lower(lossy(x)), Lower(lossy(y))];
    assert Names(lossy, [x + [46] + y]) == [Lower(lossy(x)) + "." + Lower(lossy(y))];
  }

  /** Dots make names ambiguous: wherever two ASCII labels short enough for one stand side by side, the
      query with the two and the query with one label that holds a dot between them are both accepted,
      under the same name, though their labels differ. */
  lemma DotAmbiguous(header: seq<byte>, pre: seq<seq<byte>>, x: seq<byte>, y: seq<byte>, post: seq<seq<byte>>,
                     qtype: u16, qclass: u16, trailing: seq<byte>, lossy: seq<byte> -> string)
    requires |header| == 12 && IsQuery(header) && Faithful(lossy) && WireLabels(pre) && WireLabels(post)
    requires Ascii(x) && Ascii(y) && x != [] && y != [] && |x| + |y| <= 62
    ensures WireLabels(pre + [x, y] + post) && WireLabels(pre + [x + [46] + y] + post)
    ensures var two := EncodeQuery(header, pre + [x, y] + post, qtype, qclass, trailing);
            var one := EncodeQuery(header, pre + [x + [46] + y] + post, qtype, qclass, trailing);
            && ParseQuery(two, lossy).Some? && ParseQuery(one, lossy).Some?
            && ParseQuery(two, lossy).value.name == ParseQuery(one, lossy).value.name
            && |ParseLabels(two, 12).value.labels| == |ParseLabels(one, 12).value.labels| + 1
  {
    var two, one := pre + [x, y] + post, pre + [x + [46] + y] + post;
    QueryRoundTrip(header, two, qtype, qclass, trailing, lossy);
    QueryRoundTrip(header, one, qtype, qclass, trailing, lossy);
    QueryLabels(header, two, qtype, qclass, trailing);
    QueryLabels(header, one, qtype, qclass, trailing);
    MergedNames(pre, x, y, post, lossy);
  }

  // ---- The printer ----

  function Answer(ip: Ipv4): seq<byte> {
    [192, 12] + To16(TYPE_A) + To16(CLASS_IN) + To16(0) + To16(ANSWER_TTL_SECS) + To16(4) + Octets(ip)
  }

  function Answers(ips: seq<Ipv4>): seq<byte> {
    if ips == [] then [] else Answer(ips[0]) + Answers(ips[1..])
  }

  /** The first twelve bytes: the query's id, QR, its opcode and RD, RA and the code, the counts. */
  function ResponseHeader(query: seq<byte>, rcode: byte, answers: nat): seq<byte>
    requires |query| >= 12
  {
    query[0..2] + [128 + query[2] / 8 % 16 * 8 + query[2] % 2, 128 + rcode % 16]
    + To16(1) + To16(answers % 0x1_0000) + [0, 0, 0, 0]
  }

  function BuildResponse(query: seq<byte>, question: Question, rcode: byte, ips: seq<Ipv4>): seq<byte>
    requires 12 <= question.end <= |query|
  {
    ResponseHeader(query, rcode, |ips|) + query[12..question.end] + Answers(ips)
  }

  lemma Regroup(a: seq<byte>, b: seq<byte>, c: seq<byte>)
    ensures a + (b + c) == (a + b) + c
  {
  }

  lemma {:induction false} AnswersSnoc(ips: seq<Ipv4>, ip: Ipv4)
    ensures Answers(ips + [ip]) == Answers(ips) + Answer(ip)
  {
    if ips == [] {
      assert ([] + [ip])[1..] == [];
    } else {
      AnswersSnoc(ips[1..], ip);
      assert (ips + [ip])[1..] == ips[1..] + [ip];
      Regroup(Answer(ips[0]), Answers(ips[1..]), Answer(ip));
    }
  }

  /** One record appended, piece by piece. */
  method AppendAnswer(front: seq<byte>, ip: Ipv4) returns (out: seq<byte>)
    ensures out == front + Answer(ip)
  {
    out := front + [192, 12];
    out := out + To16(TYPE_A) + To16(CLASS_IN);
    out := out + To16(0) + To16(ANSWER_TTL_SECS);
    out := out + To16(4) + Octets(ip);
  }

  method WriteHeader(query: seq<byte>, rcode: byte, answers: nat) returns (out: seq<byte>)
    requires |query| >= 12
    ensures out == ResponseHeader(query, rcode, answers)
  {
    out := query[0..2];
    var opcodeAndRd := query[2] / 8 % 16 * 8 + query[2] % 2;
    out := out + [128 + opcodeAndRd] + [128 + rcode % 16];
    out := out + To16(1);
    out := out + To16(answers % 0x1_0000);
    out := out + [0, 0, 0, 0];
  }

  lemma AnswersNext(front: seq<byte>, ips: seq<Ipv4>, i: nat)
    requires i < |ips|
    ensures front + Answers(ips[..i]) + Answer(ips[i]) == front + Answers(ips[..i + 1])
  {
    AnswersSnoc(ips[..i], ips[i]);
    assert ips[..i + 1] == ips[..i] + [ips[i]];
    Regroup(front, Answers(ips[..i]), Answer(ips[i]));
  }

  /** The appending loop of `build_response`. */
  method WriteResponse(query: seq<byte>, question: Question, rcode: byte, ips: seq<Ipv4>) returns (out: seq<byte>)
    requires 12 <= question.end <= |query|
    ensures out == BuildResponse(query, question, rcode, ips)
  {
    out := WriteHeader(query, rcode, |ips|);
    out := out + query[12..question.end];
    ghost var front := out;
    for i := 0 to |ips|
      invariant out == front + Answers(ips[..i])
    {
      out := AppendAnswer(out, ips[i]);
      AnswersNext(front, ips, i);
    }
    assert ips[..|ips|] == ips;
  }
}
