/**
 Data transfer channel ids as text, `initiator-responder-transferid`, and the
 peer ids inside them. The peer id codec lives in a library; what is needed of
 it is stated by `Printable`.
 */
module ChannelIds {
  import opened Common
  import opened Decimal
  import opened Strings

  type PeerId = string

  /** libp2p's printed form of peer ids and its parser. */
  datatype PeerCodec = PeerCodec(encode: PeerId -> string, decode: string -> Option<PeerId>) {

    /** `p` survives printing and parsing, and its printed form has no dash. */
    predicate Printable(p: PeerId) {
      decode(encode(p)) == Some(p) && Lacks(encode(p), '-')
    }

    /** Whatever the parser accepts can be printed. */
    ghost predicate Total() {
      forall s, p :: decode(s) == Some(p) ==> Printable(p)
    }
  }

  datatype ChannelId = ChannelId(initiator: PeerId, responder: PeerId, id: nat)

  predicate Printable(codec: PeerCodec, c: ChannelId) {
    codec.Printable(c.initiator) && codec.Printable(c.responder) && c.id < UINT64_SIZE
  }

  function Print(codec: PeerCodec, c: ChannelId): string {
    codec.encode(c.initiator) + "-" + codec.encode(c.responder) + "-" + Format(c.id)
  }

  /** `ChannelIDFromString`; every error of the source is `None`. */
  function ChannelIdFromString(codec: PeerCodec, id: string): Option<ChannelId> {
    if id == "" then None
    else
      var parts := Split(id, '-');
      if |parts| != 3 then None
      else
        match (codec.decode(parts[0]), codec.decode(parts[1]), ParseUint(parts[2]))
        case (Some(initiator), Some(responder), Some(xferid)) => Some(ChannelId(initiator, responder, xferid))
        case _ => None
  }

  lemma SplitThree(a: string, b: string, c: string)
    requires Lacks(a, '-') && Lacks(b, '-') && Lacks(c, '-')
    ensures Split(a + "-" + b + "-" + c, '-') == [a, b, c]
  {
    assert a + "-" + b + "-" + c == a + ['-'] + (b + ['-'] + c);
    SplitAt(a, '-', b + ['-'] + c);
    SplitAt(b, '-', c);
    SplitLacking(c, '-');
  }

  /** Parsing the printed form gives back the channel id. */
  lemma PrintParses(codec: PeerCodec, c: ChannelId)
    requires Printable(codec, c)
    ensures ChannelIdFromString(codec, Print(codec, c)) == Some(c)
  {
    DigitsLackDash(Format(c.id));
    SplitThree(codec.encode(c.initiator), codec.encode(c.responder), Format(c.id));
    ParseFormat(c.id);
  }

  /** A text is accepted exactly when it is two peer ids and a 64-bit number with dashes between. */
  lemma AcceptedTexts(codec: PeerCodec, text: string, c: ChannelId)
    ensures ChannelIdFromString(codec, text) == Some(c) <==>
            exists a, b, n ::
              && text == a + "-" + b + "-" + n
              && Lacks(a, '-') && Lacks(b, '-')
              && codec.decode(a) == Some(c.initiator)
              && codec.decode(b) == Some(c.responder)
              && ParseUint(n) == Some(c.id)
  {
    if ChannelIdFromString(codec, text) == Some(c) {
      var parts := Split(text, '-');
      JoinSplit(text, '-');
      assert Join(parts[1..], '-') == parts[1] + ['-'] + Join(parts[1..][1..], '-');
      assert parts[1..][1..] == [parts[2]];
      assert text == parts[0] + "-" + parts[1] + "-" + parts[2];
    }
    forall a, b, n |
      && text == a + "-" + b + "-" + n && Lacks(a, '-') && Lacks(b, '-')
      && codec.decode(a) == Some(c.initiator) && codec.decode(b) == Some(c.responder) && ParseUint(n) == Some(c.id)
      ensures ChannelIdFromString(codec, text) == Some(c)
    {
      DigitsLackDash(n);
      SplitThree(a, b, n);
    }
  }

  /**
   Printing after parsing normalises: the result parses to the same id and
   normalising again changes nothing. The text itself survives exactly when both
   peer ids were in printed form and the number had no leading zero.
   */
  lemma PrintNormalises(codec: PeerCodec, text: string)
    requires codec.Total() && ChannelIdFromString(codec, text).Some?
    ensures var c := ChannelIdFromString(codec, text).value;
            && ChannelIdFromString(codec, Print(codec, c)) == Some(c)
            && (Print(codec, c) == text <==>
                && codec.encode(c.initiator) == Split(text, '-')[0]
                && codec.encode(c.responder) == Split(text, '-')[1]
                && NoLeadingZero(Split(text, '-')[2]))
  {
    var c := ChannelIdFromString(codec, text).value;
    var parts := Split(text, '-');
    assert codec.Printable(c.initiator) && codec.Printable(c.responder);
    PrintParses(codec, c);
    JoinSplit(text, '-');
    assert parts == [parts[0], parts[1], parts[2]];
    assert Join(parts[1..], '-') == parts[1] + ['-'] + Join(parts[1..][1..], '-');
    assert parts[1..][1..] == [parts[2]];
    assert text == parts[0] + "-" + parts[1] + "-" + parts[2];
    DigitsLackDash(Format(c.id));
    SplitThree(codec.encode(c.initiator), codec.encode(c.responder), Format(c.id));
    FormatParse(parts[2]);
  }

  /** Distinct channel ids print differently. */
  lemma PrintInjective(codec: PeerCodec, c: ChannelId, d: ChannelId)
    requires Printable(codec, c) && Printable(codec, d)
    ensures Print(codec, c) == Print(codec, d) <==> c == d
  {
    PrintParses(codec, c);
    PrintParses(codec, d);
  }

  /** The two id spaces are disjoint: no text is both a manager id and a channel id. */
  lemma IdSpacesDisjoint(codec: PeerCodec, text: string)
    ensures ParseUint(text).None? || ChannelIdFromString(codec, text).None?
    ensures forall c :: Printable(codec, c) ==> ParseUint(Print(codec, c)).None?
  {
    if ParseUint(text).Some? {
      DigitsLackDash(text);
      SplitLacking(text, '-');
    }
    forall c | Printable(codec, c)
      ensures ParseUint(Print(codec, c)).None?
    {
      assert Print(codec, c)[|codec.encode(c.initiator)|] == '-';
    }
  }
}
