/**
 * Requests and the account token: `ApiReq.set_alacctoken_opt`, which does
 * nothing, and `ApiReqAuthed.set_alacctoken_opt`, which assigns the
 * `alacctoken` field that the constructor never takes.
 */
module Requests {
  import opened Wrappers
  import opened Wire
  import opened Api
  import opened Codec

  /** The fields with every entry called `name` given the value `v`, everything else as it was. */
  function SetField(fields: seq<(string, FVal)>, name: string, v: FVal): (r: seq<(string, FVal)>)
    ensures |r| == |fields|
    ensures forall i :: 0 <= i < |fields| ==> r[i].0 == fields[i].0
    ensures forall i :: 0 <= i < |fields| ==> r[i].1 == if fields[i].0 == name then v else fields[i].1
  {
    seq(|fields|, i requires 0 <= i < |fields| => if fields[i].0 == name then (name, v) else fields[i])
  }

  /** The record after `set_alacctoken_opt(token)`: only authenticated requests take the token. */
  function WithToken(r: Record, token: string): Record {
    if IsAuthed(r.ty) then Record(r.ty, SetField(r.fields, "alacctoken", Raw(Str(token)))) else r
  }

  /** A request object, whose fields the client updates in place before sending it. */
  class Request {
    const ty: RecType
    var fields: seq<(string, FVal)>

    function Current(): Record
      reads this
    {
      Record(ty, fields)
    }

    constructor(r: Record)
      ensures Current() == r
    {
      ty := r.ty;
      fields := r.fields;
    }

    method SetAlacctokenOpt(token: string)
      modifies this
      ensures Current() == WithToken(old(Current()), token)
    {
      if IsAuthed(ty) {
        fields := SetField(fields, "alacctoken", Raw(Str(token)));
      }
    }
  }

  /**
   * On an authenticated request the token lands in `alacctoken`, the first
   * field, and every other field keeps its value; on any other request
   * nothing changes.
   */
  lemma WithTokenChangesOnlyToken(decls: Decls, r: Record, token: string)
    requires ValidDecls(decls) && Conforms(decls, r)
    ensures var w := WithToken(r, token);
      && w.ty == r.ty && Conforms(decls, w)
      && (!IsAuthed(r.ty) ==> w == r)
      && (IsAuthed(r.ty) ==> w.fields[0] == ("alacctoken", Raw(Str(token))))
      && forall i :: 0 < i < |r.fields| ==> w.fields[i] == r.fields[i]
  {
    var fs := decls(r.ty);
    assert WellFormedDecl(r.ty, fs);
    if IsAuthed(r.ty) {
      forall i | 0 < i < |r.fields| ensures r.fields[i].0 != "alacctoken" {
        assert fs[0].name == "alacctoken";
      }
    }
  }

  /** The serialised authenticated request carries the token as its first entry. */
  lemma TokenSerialised(decls: Decls, r: Record, token: string)
    requires ValidDecls(decls) && Conforms(decls, r) && IsAuthed(r.ty)
    ensures ToDict(WithToken(r, token)).entries[0] == ("alacctoken", Str(token))
  {
    WithTokenChangesOnlyToken(decls, r, token);
    ToDictEntry(WithToken(r, token), 0);
  }

  /**
   * An authenticated request does not survive `from_dict(to_dict())`: the
   * serialisation always has an `alacctoken` entry, which the constructor
   * does not accept.
   */
  lemma AuthedNoRoundTrip(decls: Decls, r: Record)
    requires ValidDecls(decls) && Conforms(decls, r) && IsAuthed(r.ty)
    ensures DecodeStruct(decls, r.ty, ToDict(r).entries) == Err(TypeError)
  {
    var fs := decls(r.ty);
    assert WellFormedDecl(r.ty, fs);
    var es := ToDict(r).entries;
    assert es[0].0 == "alacctoken";
    assert "alacctoken" in KeySet(es);
    assert "alacctoken" !in InitNames(decls, r.ty);
    DecodeStructSucceeds(decls, r.ty, es);
  }
}
