/**
 * `get_message_body`: the plain-text body of a payload tree. A node with 'parts'
 * concatenates, in part order, the decoded data of its `text/plain` children that
 * carry data and the bodies of its children that have parts of their own; a node
 * without 'parts' yields its own decoded data whatever its type. A decoding error
 * ends the current call with the text accumulated so far; a nested call catches its
 * own errors, so its parent carries on with the later siblings.
 */
module MimeBody {
  import opened Mail

  predicate IsPlainWithData(p: Part) {
    p.mimeType == "text/plain" && p.data.Some?
  }

  /** The body of one payload node. */
  function BodyText(decode: Decoder, p: Part): string
    decreases p, 1
  {
    match p
    case Container(_, _, _, children) => PartsText(decode, children)
    case Leaf(_, _, data) =>
      match data
      case Some(d) => decode(d).GetOr("")
      case None => ""
  }

  /** The loop over the children of a node, from the given child on. */
  function PartsText(decode: Decoder, ps: seq<Part>): string
    decreases ps, 0
  {
    if ps == [] then ""
    else if IsPlainWithData(ps[0]) then
      match decode(ps[0].data.value)
      case Some(t) => t + PartsText(decode, ps[1..])
      case None => ""
    else if ps[0].Container? then BodyText(decode, ps[0]) + PartsText(decode, ps[1..])
    else PartsText(decode, ps[1..])
  }

  method GetMessageBody(decode: Decoder, payload: Part) returns (body: string)
    ensures body == BodyText(decode, payload)
    decreases payload
  {
    body := "";
    match payload {
      case Container(_, _, _, children) =>
        var i := 0;
        while i < |children|
          invariant 0 <= i <= |children|
          invariant PartsText(decode, children) == body + PartsText(decode, children[i..])
        {
          var part := children[i];
          assert children[i..][1..] == children[i + 1..];
          if part.mimeType == "text/plain" && part.data.Some? {
            match decode(part.data.value) {
              case Some(t) =>
                body := body + t;
              case None =>
                // the exception leaves the loop; what was accumulated is returned
                assert body + PartsText(decode, children[i..]) == body + "";
                return;
            }
          } else if part.Container? {
            var inner := GetMessageBody(decode, part);
            body := body + inner;
          }
          i := i + 1;
        }
      case Leaf(_, _, data) =>
        if data.Some? {
          match decode(data.value) {
            case Some(t) => body := t;
            case None =>
          }
        }
    }
  }

  /** The encoded texts the traversal decodes, in traversal order (a reference definition). */
  function PlainData(p: Part): seq<string>
    decreases p, 1
  {
    match p
    case Container(_, _, _, children) => PartsData(children)
    case Leaf(_, _, data) => if data.Some? then [data.value] else []
  }

  function PartsData(ps: seq<Part>): seq<string>
    decreases ps, 0
  {
    if ps == [] then []
    else if IsPlainWithData(ps[0]) then [ps[0].data.value] + PartsData(ps[1..])
    else if ps[0].Container? then PlainData(ps[0]) + PartsData(ps[1..])
    else PartsData(ps[1..])
  }

  /** The decoded texts of `ds`, concatenated in order. */
  function DecodedConcat(decode: Decoder, ds: seq<string>): string {
    if ds == [] then "" else decode(ds[0]).GetOr("") + DecodedConcat(decode, ds[1..])
  }

  predicate AllDecode(decode: Decoder, ds: seq<string>) {
    forall i | 0 <= i < |ds| :: decode(ds[i]).Some?
  }

  lemma {:induction false} DecodedConcatAppend(decode: Decoder, a: seq<string>, b: seq<string>)
    ensures DecodedConcat(decode, a + b) == DecodedConcat(decode, a) + DecodedConcat(decode, b)
  {
    if a == [] {
      assert a + b == b;
    } else {
      assert (a + b)[0] == a[0];
      assert (a + b)[1..] == a[1..] + b;
      DecodedConcatAppend(decode, a[1..], b);
    }
  }

  /**
   * When every text the traversal meets decodes, the body is exactly the decoded
   * `text/plain` data of the tree, concatenated in traversal order.
   */
  lemma {:induction false} BodyIsDecodedPlainData(decode: Decoder, p: Part)
    requires AllDecode(decode, PlainData(p))
    ensures BodyText(decode, p) == DecodedConcat(decode, PlainData(p))
    decreases p, 1
  {
    match p {
      case Container(_, _, _, children) => PartsAreDecodedPlainData(decode, children);
      case Leaf(_, _, _) =>
    }
  }

  lemma {:induction false} PartsAreDecodedPlainData(decode: Decoder, ps: seq<Part>)
    requires AllDecode(decode, PartsData(ps))
    ensures PartsText(decode, ps) == DecodedConcat(decode, PartsData(ps))
    decreases ps, 0
  {
    if ps != [] {
      var rest := PartsData(ps[1..]);
      if IsPlainWithData(ps[0]) {
        var d := ps[0].data.value;
        assert PartsData(ps) == [d] + rest;
        assert AllDecode(decode, rest) by {
          forall i | 0 <= i < |rest| ensures decode(rest[i]).Some? {
            assert rest[i] == PartsData(ps)[i + 1];
          }
        }
        PartsAreDecodedPlainData(decode, ps[1..]);
        assert decode(PartsData(ps)[0]).Some?;
        assert ([d] + rest)[1..] == rest;
      } else if ps[0].Container? {
        var own := PlainData(ps[0]);
        assert PartsData(ps) == own + rest;
        assert AllDecode(decode, own) by {
          forall i | 0 <= i < |own| ensures decode(own[i]).Some? {
            assert own[i] == PartsData(ps)[i];
          }
        }
        assert AllDecode(decode, rest) by {
          forall i | 0 <= i < |rest| ensures decode(rest[i]).Some? {
            assert rest[i] == PartsData(ps)[|own| + i];
          }
        }
        BodyIsDecodedPlainData(decode, ps[0]);
        PartsAreDecodedPlainData(decode, ps[1..]);
        DecodedConcatAppend(decode, own, rest);
      } else {
        PartsAreDecodedPlainData(decode, ps[1..]);
      }
    }
  }

  /** No `text/plain` child with data at this level fails to decode (nested levels may). */
  predicate NoFailureAtThisLevel(decode: Decoder, ps: seq<Part>) {
    forall i | 0 <= i < |ps| :: IsPlainWithData(ps[i]) ==> decode(ps[i].data.value).Some?
  }

  /**
   * Siblings contribute in order: the text of `a + b` is the text of `a` followed by
   * the text of `b`, as long as `a` stops nowhere at its own level. Failures inside
   * nested containers of `a` do not stop `b`.
   */
  lemma {:induction false} SiblingsConcatenateInOrder(decode: Decoder, a: seq<Part>, b: seq<Part>)
    requires NoFailureAtThisLevel(decode, a)
    ensures PartsText(decode, a + b) == PartsText(decode, a) + PartsText(decode, b)
  {
    if a == [] {
      assert a + b == b;
    } else {
      assert (a + b)[0] == a[0];
      assert (a + b)[1..] == a[1..] + b;
      assert NoFailureAtThisLevel(decode, a[1..]) by {
        forall i | 0 <= i < |a[1..]| ensures IsPlainWithData(a[1..][i]) ==> decode(a[1..][i].data.value).Some? {
          assert a[1..][i] == a[i + 1];
        }
      }
      SiblingsConcatenateInOrder(decode, a[1..], b);
    }
  }

  /**
   * A `text/plain` child whose data does not decode ends the loop: the result is the
   * text of the children before it, and nothing after it contributes.
   */
  lemma {:induction false} FailureKeepsTextSoFar(decode: Decoder, ps: seq<Part>, k: nat)
    requires k < |ps| && IsPlainWithData(ps[k]) && decode(ps[k].data.value).None?
    ensures PartsText(decode, ps) == PartsText(decode, ps[..k])
  {
    if k > 0 {
      assert ps[1..][k - 1] == ps[k];
      FailureKeepsTextSoFar(decode, ps[1..], k - 1);
      assert ps[..k][1..] == ps[1..][..k - 1];
    }
  }
}
