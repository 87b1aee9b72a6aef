/** A reference reading of DNS messages after sections 4.1.1 to 4.1.4 of RFC 1035, names with
    compression included, and what it makes of the server's responses. */
module DnsMessage {
  import opened Options
  import opened Network
  import opened Bytes
  import opened DnsCodec

  datatype Header = Header(
    id: seq<byte>, qr: bool, opcode: nat, aa: bool, tc: bool, rd: bool, ra: bool, z: nat, rcode: nat,
    qdcount: nat, ancount: nat, nscount: nat, arcount: nat)

  datatype Record = Record(owner: seq<seq<byte>>, rtype: nat, class_: nat, ttl: nat, data: seq<byte>)

  datatype Message = Message(header: Header, qname: seq<seq<byte>>, qtype: nat, qclass: nat, answers: seq<Record>)

  function ReadHeader(m: seq<byte>): Header
    requires |m| >= 12
  {
    Header(m[0..2], m[2] >= 128, m[2] / 8 % 16, m[2] / 4 % 2 == 1, m[2] / 2 % 2 == 1, m[2] % 2 == 1,
           m[3] >= 128, m[3] / 16 % 8, m[3] % 16,
           Be16(m[4], m[5]), Be16(m[6], m[7]), Be16(m[8], m[9]), Be16(m[10], m[11]))
  }

  /** What the server takes for a query is one by its header: not a response, a standard query, one question. */
  lemma QueryByHeader(m: seq<byte>)
    requires |m| >= 12
    ensures var h := ReadHeader(m); IsQuery(m) <==> !h.qr && h.opcode == 0 && h.qdcount == 1
  {
  }

  /** A name: labels, ended by the empty label or by a pointer to an earlier place (section 4.1.4).
      `bound` is where the current stretch of labels begins; a pointer must lead below it. */
  function ReadName(m: seq<byte>, bound: nat, pos: nat): Option<Labels>
    decreases bound, |m| - pos
  {
    if pos >= |m| then None
    else if m[pos] == 0 then Some(Labels([], pos + 1))
    else if m[pos] >= 192 then
      if pos + 1 >= |m| then None
      else
        var target: int := Be16(m[pos] - 192, m[pos + 1]);
        if target >= bound then None
        else
          match ReadName(m, target, target)
          case None => None
          case Some(rest) => Some(Labels(rest.labels, pos + 2))
    else if m[pos] >= 64 || pos + 1 + m[pos] > |m| then None
    else
      match ReadName(m, bound, pos + 1 + m[pos])
      case None => None
      case Some(rest) => Some(Labels([m[pos + 1..pos + 1 + m[pos]]] + rest.labels, rest.end))
  }

  datatype ReadRecord = ReadRecord(record: Record, end: nat)

  /** One resource record (section 4.1.3). */
  function ReadOne(m: seq<byte>, pos: nat): Option<ReadRecord> {
    match ReadName(m, pos, pos)
    case None => None
    case Some(Labels(owner, at)) =>
      if at + 10 > |m| then None
      else
        var length := Be16(m[at + 8], m[at + 9]);
        if at + 10 + length > |m| then None
        else Some(ReadRecord(
                    Record(owner, Be16(m[at], m[at + 1]), Be16(m[at + 2], m[at + 3]),
                           0x1_0000 * Be16(m[at + 4], m[at + 5]) + Be16(m[at + 6], m[at + 7]),
                           m[at + 10..at + 10 + length]),
                    at + 10 + length))
  }

  function ReadRecords(m: seq<byte>, pos: nat, count: nat): Option<seq<Record>>
    decreases count
  {
    if count == 0 then Some([])
    else
      match ReadOne(m, pos)
      case None => None
      case Some(first) =>
        match ReadRecords(m, first.end, count - 1)
        case None => None
        case Some(rest) => Some([first.record] + rest)
  }

  /** A message with one question. */
  function ReadMessage(m: seq<byte>): Option<Message> {
    if |m| < 12 || Be16(m[4], m[5]) != 1 then None
    else
      match ReadName(m, 12, 12)
      case None => None
      case Some(Labels(qname, at)) =>
        if at + 4 > |m| then None
        else
          match ReadRecords(m, at + 4, Be16(m[6], m[7]))
          case None => None
          case Some(answers) =>
            Some(Message(ReadHeader(m), qname, Be16(m[at], m[at + 1]), Be16(m[at + 2], m[at + 3]), answers))
  }

  // ---- The responses ----

  /** The reference reads a name without pointers as the query parser does. */
  lemma {:induction false} PlainName(m: seq<byte>, bound: nat, pos: nat)
    requires ParseLabels(m, pos).Some?
    ensures ReadName(m, bound, pos) == ParseLabels(m, pos)
    decreases |m| - pos
  {
    if m[pos] != 0 {
      PlainName(m, bound, pos + 1 + m[pos]);
    }
  }

  lemma {:induction false} AnswersLength(ips: seq<Ipv4>)
    ensures |Answers(ips)| == 16 * |ips|
  {
    if ips != [] {
      AnswersLength(ips[1..]);
    }
  }

  /** What a reader should find for one answered address. */
  function ARecord(owner: seq<seq<byte>>, ip: Ipv4): Record {
    Record(owner, TYPE_A, CLASS_IN, ANSWER_TTL_SECS, Octets(ip))
  }

  function ARecords(owner: seq<seq<byte>>, ips: seq<Ipv4>): seq<Record> {
    seq(|ips|, i requires 0 <= i < |ips| => ARecord(owner, ips[i]))
  }

  function FromOctets(o: seq<byte>): int
    requires |o| == 4
  {
    0x1_0000 * Be16(o[0], o[1]) + Be16(o[2], o[3])
  }

  /** The octets of a record stand for the address. */
  lemma OctetsRoundTrip(ip: Ipv4)
    ensures FromOctets(Octets(ip)) == ip
  {
    var a: int := ip / 0x100_0000;
    var b: int := ip / 0x1_0000;
    var c: int := ip / 256;
    assert b / 256 == a && c / 256 == b;
    assert b % 256 == b - 256 * a && c % 256 == c - 256 * b && ip % 256 == ip - 256 * c;
  }

  /** The fixed part of an answer, field by field. */
  lemma AnswerFields(ip: Ipv4)
    ensures var a := Answer(ip);
            && |a| == 16 && a[0] == 192 && a[1] == 12
            && Be16(a[2], a[3]) == TYPE_A && Be16(a[4], a[5]) == CLASS_IN
            && Be16(a[6], a[7]) == 0 && Be16(a[8], a[9]) == ANSWER_TTL_SECS && Be16(a[10], a[11]) == 4
            && a[12..16] == Octets(ip)
  {
  }

  /** The owner pointer of an answer leads to the question name. */
  lemma OwnerPointer(m: seq<byte>, pos: nat)
    requires ParseLabels(m, 12).Some? && 12 < pos && pos + 1 < |m| && m[pos] == 192 && m[pos + 1] == 12
    ensures ReadName(m, pos, pos) == Some(Labels(ParseLabels(m, 12).value.labels, pos + 2))
  {
    PlainName(m, 12, 12);
  }

  lemma ReadAnswer(m: seq<byte>, pos: nat, ip: Ipv4)
    requires ParseLabels(m, 12).Some? && 12 < pos && pos + 16 <= |m| && m[pos..pos + 16] == Answer(ip)
    ensures ReadOne(m, pos) == Some(ReadRecord(ARecord(ParseLabels(m, 12).value.labels, ip), pos + 16))
  {
    var a := m[pos..pos + 16];
    AnswerFields(ip);
    OwnerPointer(m, pos);
    assert m[pos + 12..pos + 16] == a[12..16];
    assert m[pos + 2] == a[2] && m[pos + 3] == a[3] && m[pos + 4] == a[4] && m[pos + 5] == a[5];
    assert m[pos + 6] == a[6] && m[pos + 7] == a[7] && m[pos + 8] == a[8] && m[pos + 9] == a[9];
    assert m[pos + 10] == a[10] && m[pos + 11] == a[11];
  }

  lemma TailSplits(m: seq<byte>, pos: nat, x: seq<byte>, y: seq<byte>)
    requires pos <= |m| && m[pos..] == x + y
    ensures pos + |x| <= |m| && m[pos..pos + |x|] == x && m[pos + |x|..] == y
  {
    assert m[pos..pos + |x|] == m[pos..][..|x|] && m[pos + |x|..] == m[pos..][|x|..];
  }

  lemma ARecordsCons(owner: seq<seq<byte>>, ips: seq<Ipv4>, count: nat)
    requires 0 < count <= |ips|
    ensures ARecords(owner, ips[..count]) == [ARecord(owner, ips[0])] + ARecords(owner, ips[1..][..count - 1])
  {
  }

  lemma AnswerLength(ip: Ipv4)
    ensures |Answer(ip)| == 16
  {
  }

  lemma ReadRecordsCons(m: seq<byte>, pos: nat, count: nat, first: ReadRecord, rest: seq<Record>)
    requires count > 0 && ReadOne(m, pos) == Some(first) && ReadRecords(m, first.end, count - 1) == Some(rest)
    ensures ReadRecords(m, pos, count) == Some([first.record] + rest)
  {
  }

  /** From `pos` on there is one answer after another. */
  ghost predicate AnswersAt(m: seq<byte>, pos: nat, ips: seq<Ipv4>)
    decreases |ips|
  {
    ips == []
    || (pos + 16 <= |m| && m[pos..pos + 16] == Answer(ips[0]) && AnswersAt(m, pos + 16, ips[1..]))
  }

  lemma {:induction false} AnswersLieThere(m: seq<byte>, pos: nat, ips: seq<Ipv4>)
    requires pos <= |m| && m[pos..] == Answers(ips)
    ensures AnswersAt(m, pos, ips)
    decreases |ips|
  {
    if ips != [] {
      AnswerLength(ips[0]);
      TailSplits(m, pos, Answer(ips[0]), Answers(ips[1..]));
      AnswersLieThere(m, pos + 16, ips[1..]);
    }
  }

  lemma {:induction false} ReadAnswers(m: seq<byte>, pos: nat, ips: seq<Ipv4>, count: nat)
    requires ParseLabels(m, 12).Some? && 12 < pos && count <= |ips| && AnswersAt(m, pos, ips)
    ensures ReadRecords(m, pos, count) == Some(ARecords(ParseLabels(m, 12).value.labels, ips[..count]))
    decreases count
  {
    var owner := ParseLabels(m, 12).value.labels;
    if count > 0 {
      ReadAnswer(m, pos, ips[0]);
      ReadAnswers(m, pos + 16, ips[1..], count - 1);
      ARecordsCons(owner, ips, count);
      ReadRecordsCons(m, pos, count, ReadRecord(ARecord(owner, ips[0]), pos + 16), ARecords(owner, ips[1..][..count - 1]));
    } else {
      assert ARecords(owner, ips[..0]) == [];
    }
  }

  lemma SameSlice(m: seq<byte>, m': seq<byte>, i: nat, j: nat)
    requires i <= j <= |m| && j <= |m'| && forall k :: i <= k < j ==> m'[k] == m[k]
    ensures m'[i..j] == m[i..j]
  {
  }

  /** Labels are read from the bytes up to their end alone. */
  lemma {:induction false} LabelsLocal(m: seq<byte>, m': seq<byte>, pos: nat)
    requires ParseLabels(m, pos).Some? && ParseLabels(m, pos).value.end <= |m'|
    requires forall k :: pos <= k < ParseLabels(m, pos).value.end ==> k < |m| && m'[k] == m[k]
    ensures ParseLabels(m', pos) == ParseLabels(m, pos)
    decreases |m| - pos
  {
    ParsedLabelsEncode(m, pos);
    if m[pos] != 0 {
      var next := pos + 1 + m[pos];
      ParsedLabelsEncode(m, next);
      LabelsLocal(m, m', next);
      SameSlice(m, m', pos + 1, next);
    }
  }

  /** The header a reader should find in a response. */
  function ResponseFields(query: seq<byte>, rcode: byte, answers: nat): Header
    requires |query| >= 12
  {
    Header(query[0..2], true, 0, false, false, query[2] % 2 == 1, true, 0, rcode % 16, 1, answers % 0x1_0000, 0, 0)
  }

  lemma HeaderReads(query: seq<byte>, rcode: byte, answers: nat, rest: seq<byte>)
    requires IsQuery(query)
    ensures var m := ResponseHeader(query, rcode, answers) + rest;
            && |ResponseHeader(query, rcode, answers)| == 12
            && ReadHeader(m) == ResponseFields(query, rcode, answers)
  {
    var h := ResponseHeader(query, rcode, answers);
    var m := h + rest;
    HeaderBytes(query, rcode, answers);
    assert m[0..2] == h[0..2];
    assert forall k :: 0 <= k < 12 ==> m[k] == h[k];
    FlagsRead(query[2] % 2, rcode % 16);
    Split16(1);
    Split16(answers % 0x1_0000);
  }

  lemma HeaderBytes(query: seq<byte>, rcode: byte, answers: nat)
    requires IsQuery(query)
    ensures var h, count := ResponseHeader(query, rcode, answers), To16(answers % 0x1_0000);
            && |h| == 12 && h[0..2] == query[0..2]
            && h[2] == 128 + query[2] % 2 && h[3] == 128 + rcode % 16
            && h[4] == To16(1)[0] && h[5] == To16(1)[1] && h[6] == count[0] && h[7] == count[1]
            && h[8] == h[9] == h[10] == h[11] == 0
  {
  }

  lemma FlagsRead(rd: byte, code: byte)
    requires rd < 2 && code < 16
    ensures var two, three := 128 + rd, 128 + code;
            && two / 8 % 16 == 0 && two / 4 % 2 == 0 && two / 2 % 2 == 0 && two % 2 == rd
            && three / 16 % 8 == 0 && three % 16 == code
  {
  }

  lemma Split16(x: u16)
    ensures Be16(To16(x)[0], To16(x)[1]) == x
  {
  }

  /** Where the parts of a response lie. */
  ghost predicate LaidOut(m: seq<byte>, query: seq<byte>, q: Question, rcode: byte, ips: seq<Ipv4>) {
    && 12 <= q.end <= |query| && |m| == q.end + 16 * |ips| && AnswersAt(m, q.end, ips)
    && (forall k :: 12 <= k < q.end ==> m[k] == query[k])
    && ReadHeader(m) == ResponseFields(query, rcode, |ips|)
  }

  lemma ThreeParts(a: seq<byte>, b: seq<byte>, c: seq<byte>)
    ensures var m := a + b + c;
            && |m| == |a| + |b| + |c| && m[|a| + |b|..] == c && m == a + (b + c)
            && forall k :: 0 <= k < |b| ==> m[|a| + k] == b[k]
  {
  }

  lemma Parts(query: seq<byte>, h: seq<byte>, q: Question, ips: seq<Ipv4>)
    requires 12 <= q.end <= |query| && |h| == 12
    ensures var m := h + query[12..q.end] + Answers(ips);
            && |m| == q.end + 16 * |ips| && m[q.end..] == Answers(ips)
            && m == h + (query[12..q.end] + Answers(ips))
            && forall k :: 12 <= k < q.end ==> m[k] == query[k]
  {
    AnswersLength(ips);
    ThreeParts(h, query[12..q.end], Answers(ips));
    forall k | 12 <= k < q.end
      ensures (h + query[12..q.end] + Answers(ips))[k] == query[k]
    {
      assert query[12..q.end][k - 12] == query[k];
    }
  }

  lemma Layout(query: seq<byte>, q: Question, rcode: byte, ips: seq<Ipv4>)
    requires 12 <= q.end <= |query| && IsQuery(query)
    ensures LaidOut(BuildResponse(query, q, rcode, ips), query, q, rcode, ips)
  {
    HeaderReads(query, rcode, |ips|, query[12..q.end] + Answers(ips));
    Parts(query, ResponseHeader(query, rcode, |ips|), q, ips);
    AnswersLieThere(BuildResponse(query, q, rcode, ips), q.end, ips);
  }

  /** The question section of a response reads as that of the query. */
  lemma QuestionReads(query: seq<byte>, m: seq<byte>, q: Question, lossy: seq<byte> -> string)
    requires ParseQuery(query, lossy) == Some(q) && q.end <= |m|
    requires forall k :: 12 <= k < q.end ==> m[k] == query[k]
    ensures ReadName(m, 12, 12) == ParseLabels(m, 12) == ParseLabels(query, 12)
    ensures Be16(m[q.end - 4], m[q.end - 3]) == q.qtype && Be16(m[q.end - 2], m[q.end - 1]) == q.qclass
  {
    LabelsLocal(query, m, 12);
    PlainName(m, 12, 12);
  }

  lemma LaidOutResponse(m: seq<byte>, query: seq<byte>, q: Question, rcode: byte, ips: seq<Ipv4>, lossy: seq<byte> -> string)
    requires ParseQuery(query, lossy) == Some(q) && LaidOut(m, query, q, rcode, ips)
    ensures ReadMessage(m) == Some(Message(ResponseFields(query, rcode, |ips|), ParseLabels(query, 12).value.labels,
                                           q.qtype, q.qclass,
                                           ARecords(ParseLabels(query, 12).value.labels, ips[..|ips| % 0x1_0000])))
  {
    QuestionReads(query, m, q, lossy);
    LaidOutReads(m, q.end - 4, ResponseFields(query, rcode, |ips|), ParseLabels(query, 12).value.labels,
                 q.qtype, q.qclass, ips);
  }

  /** Reading a response gives back the query's id, its question and the addresses in order, each
      owned by the question's name. The answer count has sixteen bits, so exactly the first
      |ips| mod 65536 of them are found. */
  lemma ResponseReads(query: seq<byte>, q: Question, rcode: byte, ips: seq<Ipv4>, lossy: seq<byte> -> string)
    requires ParseQuery(query, lossy) == Some(q)
    ensures var m, labels := BuildResponse(query, q, rcode, ips), ParseLabels(query, 12).value.labels;
            && |m| == q.end + 16 * |ips|
            && ReadMessage(m) == Some(Message(ResponseFields(query, rcode, |ips|), labels, q.qtype, q.qclass,
                                              ARecords(labels, ips[..|ips| % 0x1_0000])))
  {
    Layout(query, q, rcode, ips);
    LaidOutResponse(BuildResponse(query, q, rcode, ips), query, q, rcode, ips, lossy);
  }

  lemma LaidOutReads(m: seq<byte>, at: nat, h: Header, qname: seq<seq<byte>>, qtype: u16, qclass: u16, ips: seq<Ipv4>)
    requires |m| >= 12 && ReadHeader(m) == h && h.qdcount == 1 && h.ancount == |ips| % 0x1_0000
    requires ReadName(m, 12, 12) == Some(Labels(qname, at)) && ParseLabels(m, 12) == Some(Labels(qname, at))
    requires 12 < at && at + 4 <= |m| && AnswersAt(m, at + 4, ips)
    requires Be16(m[at], m[at + 1]) == qtype && Be16(m[at + 2], m[at + 3]) == qclass
    ensures ReadMessage(m) == Some(Message(h, qname, qtype, qclass, ARecords(qname, ips[..|ips| % 0x1_0000])))
  {
    ReadAnswers(m, at + 4, ips, |ips| % 0x1_0000);
    MessageReads(m, at, h, qname, qtype, qclass, ARecords(qname, ips[..|ips| % 0x1_0000]));
  }

  lemma MessageReads(m: seq<byte>, at: nat, h: Header, qname: seq<seq<byte>>, qtype: u16, qclass: u16,
                     answers: seq<Record>)
    requires |m| >= 12 && ReadHeader(m) == h && h.qdcount == 1
    requires ReadName(m, 12, 12) == Some(Labels(qname, at)) && at + 4 <= |m|
    requires Be16(m[at], m[at + 1]) == qtype && Be16(m[at + 2], m[at + 3]) == qclass
    requires ReadRecords(m, at + 4, h.ancount) == Some(answers)
    ensures ReadMessage(m) == Some(Message(h, qname, qtype, qclass, answers))
  {
  }

  /** Every address is recovered if and only if there are fewer than 65536 of them. */
  lemma AllAnswersRead(query: seq<byte>, q: Question, rcode: byte, ips: seq<Ipv4>, lossy: seq<byte> -> string)
    requires ParseQuery(query, lossy) == Some(q)
    ensures var m := ReadMessage(BuildResponse(query, q, rcode, ips));
            m.Some? && (m.value.answers == ARecords(ParseLabels(query, 12).value.labels, ips) <==> |ips| < 0x1_0000)
  {
    ResponseReads(query, q, rcode, ips, lossy);
    SomeOrAll(ParseLabels(query, 12).value.labels, ips);
  }

  lemma SomeOrAll(owner: seq<seq<byte>>, ips: seq<Ipv4>)
    ensures ARecords(owner, ips[..|ips| % 0x1_0000]) == ARecords(owner, ips) <==> |ips| < 0x1_0000
  {
    assert |ARecords(owner, ips)| == |ips|;
    assert |ARecords(owner, ips[..|ips| % 0x1_0000])| == |ips| % 0x1_0000;
    if |ips| < 0x1_0000 {
      assert ips[..|ips| % 0x1_0000] == ips;
    }
  }

  /** A response is never taken for a query. */
  lemma ResponseIsNoQuery(query: seq<byte>, q: Question, rcode: byte, ips: seq<Ipv4>, lossy: seq<byte> -> string)
    requires ParseQuery(query, lossy) == Some(q)
    ensures ParseQuery(BuildResponse(query, q, rcode, ips), lossy) == None
  {
    assert BuildResponse(query, q, rcode, ips)[2] >= 128;
  }
}
