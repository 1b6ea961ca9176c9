/** The text forms the two runtimes depend on: ids, `id:version`, and lists of ids. */
module Encoding {
  import opened Prelude

  type Uuid = nat

  // ---- identifiers -------------------------------------------------------------------------

  function Digit(n: nat): char
    requires n < 10
  {
    '0' + n as char
  }

  /** `str(id)`. The contract makes the text of an id injective wherever it is used. */
  function Text(id: Uuid): (s: string)
    ensures ParseUuid(s) == Some(id)
    ensures s != "" && forall c :: c in s ==> '0' <= c <= '9'
  {
    if id < 10 then [Digit(id)]
    else
      var front := Text(id / 10);
      var s := front + [Digit(id % 10)];
      assert s[..|s| - 1] == front;
      s
  }

  /** `UUID(text)`: refuses every text that is not an id. */
  function ParseUuid(s: string): Option<Uuid> {
    if s == "" || !('0' <= s[|s| - 1] <= '9') then None
    else
      var d := (s[|s| - 1] - '0') as nat;
      if |s| == 1 then Some(d)
      else
        match ParseUuid(s[..|s| - 1])
        case None => None
        case Some(front) => Some(10 * front + d)
  }

  /** A text with anything but digits in it is no id. */
  lemma {:induction false} ParseRefuses(s: string, k: nat)
    requires k < |s| && !('0' <= s[k] <= '9')
    ensures ParseUuid(s) == None
  {
    if k < |s| - 1 {
      ParseRefuses(s[..|s| - 1], k);
    }
  }

  // ---- `id:version` ------------------------------------------------------------------------

  function Version(id: string, version: string): string {
    id + ":" + version
  }

  /** `text.split(":", maxsplit=1)`; the unpacking of one part only raises ValueError. */
  function SplitFirst(text: string): Option<(string, string)> {
    if text == "" then None
    else if text[0] == ':' then Some(("", text[1..]))
    else
      match SplitFirst(text[1..])
      case None => None
      case Some((head, tail)) => Some(([text[0]] + head, tail))
  }

  /** `text.rsplit(":", 1)[0]`; a text without a colon is returned whole. */
  function HeadOfLast(text: string): string
    decreases |text|
  {
    match LastColon(text)
    case None => text
    case Some(i) => text[..i]
  }

  function LastColon(text: string): (at: Option<nat>)
    ensures at.Some? ==> at.value < |text| && text[at.value] == ':'
  {
    if text == "" then None
    else if text[|text| - 1] == ':' then Some(|text| - 1)
    else LastColon(text[..|text| - 1])
  }

  lemma {:induction false} LastColonIs(text: string, i: nat)
    requires i < |text| && text[i] == ':'
    requires forall k :: i < k < |text| ==> text[k] != ':'
    ensures LastColon(text) == Some(i)
  {
    if i < |text| - 1 {
      LastColonIs(text[..|text| - 1], i);
    }
  }

  lemma {:induction false} SplitFirstIs(head: string, tail: string)
    requires ':' !in head
    ensures SplitFirst(head + ":" + tail) == Some((head, tail))
  {
    var text := head + ":" + tail;
    if head == "" {
      assert text[1..] == tail;
    } else {
      assert text[1..] == head[1..] + ":" + tail;
      SplitFirstIs(head[1..], tail);
      assert [head[0]] + head[1..] == head;
    }
  }

  lemma {:induction false} SplitFirstHeadHasNoColon(text: string)
    ensures SplitFirst(text).Some? ==> ':' !in SplitFirst(text).value.0
  {
    if text != "" && text[0] != ':' {
      SplitFirstHeadHasNoColon(text[1..]);
    }
  }

  /** Postgres reads a workflow version back exactly when the panel id has no colon. */
  lemma FirstSplitRecovers(id: string, version: string)
    ensures SplitFirst(Version(id, version)) == Some((id, version)) <==> ':' !in id
  {
    if ':' !in id {
      SplitFirstIs(id, version);
    } else {
      SplitFirstHeadHasNoColon(Version(id, version));
    }
  }

  /** The memory runtime reads the panel id back exactly when the version has no colon. */
  lemma LastSplitRecovers(id: string, version: string)
    ensures HeadOfLast(Version(id, version)) == id <==> ':' !in version
  {
    var text := Version(id, version);
    assert text[|id|] == ':';
    if ':' !in version {
      LastColonIs(text, |id|);
    } else {
      var k :| 0 <= k < |version| && version[k] == ':';
      var at := |id| + 1 + k;
      assert text[at] == ':';
      LastColonAtLeast(text, at);
    }
  }

  lemma {:induction false} LastColonAtLeast(text: string, i: nat)
    requires i < |text| && text[i] == ':'
    ensures LastColon(text).Some? && LastColon(text).value >= i
  {
    if text[|text| - 1] != ':' {
      LastColonAtLeast(text[..|text| - 1], i);
    }
  }

  /** The two readings of a workflow version agree on the panel id when neither part has a colon. */
  lemma ReadingsAgree(id: string, version: string)
    requires ':' !in id && ':' !in version
    ensures SplitFirst(Version(id, version)).Some?
    ensures SplitFirst(Version(id, version)).value.0 == HeadOfLast(Version(id, version))
  {
    FirstSplitRecovers(id, version);
    LastSplitRecovers(id, version);
  }

  // ---- stored references -------------------------------------------------------------------

  /** `",".join(str(id) for id in ids)` */
  function Join(ids: seq<Uuid>): string {
    if ids == [] then ""
    else if |ids| == 1 then Text(ids[0])
    else Text(ids[0]) + "," + Join(ids[1..])
  }

  /** `text.split(",")` */
  function Split(text: string): (parts: seq<string>)
    ensures parts != []
  {
    if text == "" then [""]
    else
      var rest := Split(text[1..]);
      if text[0] == ',' then [""] + rest
      else [[text[0]] + rest[0]] + rest[1..]
  }

  /** `[UUID(part) for part in parts if part]` */
  function ParseAll(parts: seq<string>): Option<seq<Uuid>> {
    if parts == [] then Some([])
    else if parts[0] == "" then ParseAll(parts[1..])
    else
      match (ParseUuid(parts[0]), ParseAll(parts[1..]))
      case (Some(id), Some(ids)) => Some([id] + ids)
      case _ => None
  }

  /** `text.removeprefix(prefix)` */
  function RemovePrefix(text: string, prefix: string): string {
    if prefix <= text then text[|prefix|..] else text
  }

  function ArtifactsRef(ids: seq<Uuid>): string {
    "artifacts:" + Join(ids)
  }

  function ReadArtifactsRef(ref: string): Option<seq<Uuid>> {
    ParseAll(Split(RemovePrefix(ref, "artifacts:")))
  }

  lemma {:induction false} SplitPlain(head: string)
    requires ',' !in head
    ensures Split(head) == [head]
  {
    if head != "" {
      SplitPlain(head[1..]);
      assert [head[0]] + head[1..] == head;
    }
  }

  lemma {:induction false} SplitAtComma(head: string, rest: string)
    requires ',' !in head
    ensures Split(head + "," + rest) == [head] + Split(rest)
  {
    var text := head + "," + rest;
    if head == "" {
      assert text[1..] == rest;
    } else {
      assert text[1..] == head[1..] + "," + rest;
      SplitAtComma(head[1..], rest);
      assert [head[0]] + head[1..] == head;
    }
  }

  lemma {:induction false} JoinSplits(ids: seq<Uuid>)
    requires ids != []
    ensures ParseAll(Split(Join(ids))) == Some(ids)
  {
    if |ids| == 1 {
      SplitPlain(Text(ids[0]));
      var parts := [Text(ids[0])];
      assert parts[1..] == [];
      assert ParseAll(parts[1..]) == Some([]);
      assert [ids[0]] + [] == ids;
    } else {
      SplitAtComma(Text(ids[0]), Join(ids[1..]));
      JoinSplits(ids[1..]);
      var parts := [Text(ids[0])] + Split(Join(ids[1..]));
      assert parts[1..] == Split(Join(ids[1..]));
      assert [ids[0]] + ids[1..] == ids;
    }
  }

  /** The stored reference of a submission decodes to the same ids in the same order. */
  lemma ArtifactsRoundTrip(ids: seq<Uuid>)
    ensures ReadArtifactsRef(ArtifactsRef(ids)) == Some(ids)
  {
    assert ArtifactsRef(ids)[|"artifacts:"|..] == Join(ids);
    if ids == [] {
      assert Split("") == [""];
      assert [""][1..] == [];
    } else {
      JoinSplits(ids);
    }
  }

  /** `"lease:" + str(id)` and the like. */
  function KindRef(kind: string, id: Uuid): string {
    kind + ":" + Text(id)
  }

  function ReadKindRef(kind: string, ref: string): Option<Uuid> {
    ParseUuid(RemovePrefix(ref, kind + ":"))
  }

  lemma PrefixIsKind(reader: string, kind: string, rest: string)
    requires ':' !in reader && ':' !in kind
    requires reader + ":" <= kind + ":" + rest
    ensures reader == kind
  {
    var text := kind + ":" + rest;
    SplitFirstIs(kind, rest);
    SplitFirstIs(reader, text[|reader| + 1..]);
    assert text == reader + ":" + text[|reader| + 1..];
  }

  /** A reference is read back by its own kind and refused by every other kind. */
  lemma KindRefRoundTrip(kind: string, id: Uuid, reader: string)
    requires kind != "" && ':' !in kind && ':' !in reader
    requires !('0' <= kind[0] <= '9')
    ensures ReadKindRef(reader, KindRef(kind, id)) == (if reader == kind then Some(id) else None)
  {
    var ref := KindRef(kind, id);
    if reader == kind {
      assert ref[|kind| + 1..] == Text(id);
    } else {
      assert !(reader + ":" <= ref) by {
        if reader + ":" <= ref { PrefixIsKind(reader, kind, Text(id)); }
      }
      ParseRefuses(ref, 0);
    }
  }

  /** No single-id reader accepts the reference of a submission. */
  lemma ArtifactsRefRefused(ids: seq<Uuid>, reader: string)
    requires ':' !in reader && reader != "artifacts"
    ensures ReadKindRef(reader, ArtifactsRef(ids)) == None
  {
    var ref := ArtifactsRef(ids);
    assert ref == "artifacts" + ":" + Join(ids);
    assert !(reader + ":" <= ref) by {
      if reader + ":" <= ref { PrefixIsKind(reader, "artifacts", Join(ids)); }
    }
    ParseRefuses(ref, 0);
  }

  /** The list reader refuses the reference of a single record. */
  lemma KindRefRefused(kind: string, id: Uuid)
    requires kind != "" && ':' !in kind && ',' !in kind && kind != "artifacts"
    requires !('0' <= kind[0] <= '9')
    ensures ReadArtifactsRef(KindRef(kind, id)) == None
  {
    var ref := KindRef(kind, id);
    assert !("artifacts:" <= ref) by {
      if "artifacts:" <= ref {
        assert "artifacts" + ":" == "artifacts:";
        PrefixIsKind("artifacts", kind, Text(id));
      }
    }
    SplitPlain(ref);
    ParseRefuses(ref, 0);
  }
}
