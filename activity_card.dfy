/**
 * The activity card (src/components/ActivityCard.tsx): the type label, the
 * group line, the links and the classification of each attachment by its
 * MIME type.
 */
module ActivityCard {
  import opened Wrappers
  import opened Strings

  const ActivityLabel := "Activité"
  const AnnouncementLabel := "Annonce"

  /** Strictly the type `activity` is an activity; every other type is an announcement. */
  function KindLabel(kind: string): (shown: string)
    ensures shown == ActivityLabel <==> kind == "activity"
    ensures shown == AnnouncementLabel <==> kind != "activity"
  {
    if kind == "activity" then ActivityLabel else AnnouncementLabel
  }

  datatype AttachmentKind = Image | Pdf | Word | Other

  const ImagePrefix := "image/"
  const PdfType := "application/pdf"
  const WordMarker := "wordprocessingml"

  /** Image first, then PDF, then Word; anything else is a plain document. */
  function Classify(mime: string): (k: AttachmentKind)
    ensures k == Image <==> StartsWith(mime, ImagePrefix)
    ensures k == Pdf <==> !StartsWith(mime, ImagePrefix) && mime == PdfType
    ensures k == Word <==> !StartsWith(mime, ImagePrefix) && mime != PdfType && Contains(mime, WordMarker)
    ensures k == Other <==> !StartsWith(mime, ImagePrefix) && mime != PdfType && !Contains(mime, WordMarker)
  {
    if StartsWith(mime, ImagePrefix) then Image
    else if mime == PdfType then Pdf
    else if Contains(mime, WordMarker) then Word
    else Other
  }

  /** Whatever precedes it, a string contains each of its infixes. */
  lemma {:induction false} ContainsInfix(pre: string, x: string, post: string)
    ensures Contains(pre + x + post, x)
    decreases |pre|
  {
    if pre == [] {
      assert pre + x + post == x + post;
      assert (x + post)[..|x|] == x;
    } else {
      ContainsInfix(pre[1..], x, post);
      assert (pre + x + post)[1..] == pre[1..] + x + post;
    }
  }

  /** The usual MIME types fall in the expected classes. */
  lemma ClassifyImageAndPdf()
    ensures Classify("image/png") == Image
    ensures Classify(PdfType) == Pdf
  {
    assert "image/png"[..|ImagePrefix|] == ImagePrefix;
    assert PdfType[0] == 'a' && ImagePrefix[0] == 'i';
  }

  const WordDocumentType := "application/" + "vnd.openxmlformats-officedocument." + WordMarker + ".document"

  lemma ClassifyWord()
    ensures Classify(WordDocumentType) == Word
  {
    var head := "application/" + "vnd.openxmlformats-officedocument.";
    ContainsInfix(head, WordMarker, ".document");
    assert ImagePrefix[0] == 'i' && "application/"[0] == 'a';
    assert WordDocumentType[0] == 'a';
    assert |WordDocumentType| != |PdfType|;
  }

  const GroupSeparator := ", "

  /** The group line: the names joined by ", " in order, shown only when there is a group. */
  function GroupLine(names: seq<string>): (line: Option<string>)
    ensures line.None? <==> names == []
    ensures |names| == 1 ==> line == Some(names[0])
    ensures names != [] ==> line == Some(Join(names, GroupSeparator))
  {
    if |names| > 0 then Some(Join(names, GroupSeparator)) else None
  }

  /** Appending a group appends its name after a separator, so the names keep their order. */
  lemma {:induction false} JoinAppend(names: seq<string>, name: string, sep: string)
    requires names != []
    ensures Join(names + [name], sep) == Join(names, sep) + sep + name
    decreases |names|
  {
    if |names| == 1 {
      assert names + [name] == [names[0], name];
    } else {
      JoinAppend(names[1..], name, sep);
      assert (names + [name])[1..] == names[1..] + [name];
    }
  }

  /** The line's length: every name plus one separator between each pair. */
  lemma {:induction false} JoinLength(names: seq<string>, sep: string, total: nat)
    requires names != [] && total == SumLengths(names)
    ensures |Join(names, sep)| == total + (|names| - 1) * |sep|
    decreases |names|
  {
    if |names| > 1 {
      JoinLength(names[1..], sep, SumLengths(names[1..]));
    }
  }

  function SumLengths(names: seq<string>): nat
  {
    if names == [] then 0 else |names[0]| + SumLengths(names[1..])
  }

  /** The links rendered: one per entry, in order, and none when the list is missing or empty. */
  function ShownLinks(links: Option<seq<string>>): (shown: seq<string>)
    ensures links.None? ==> shown == []
    ensures links.Some? ==> shown == links.value
  {
    if links.Some? && |links.value| > 0 then links.value else []
  }
}
