/**
 * What an accepted message leaves in the store (apps/remote/server/inline-images.ts, `accept`): for every id the first definition,
 * as the message has it, a mark exactly if a later one contradicts it, and nothing else.
 */
module InlineImageAccepts {
  import opened Options
  import opened InlineImageGraph
  import opened InlineImageProtocol
  import opened InlineImageHistory

  predicate IsLetter(c: char) { 65 <= c as int <= 90 || 97 <= c as int <= 122 }

  predicate IsIdChar(c: char) { IsLetter(c) || 48 <= c as int <= 57 || c as int == 45 || c as int == 95 }

  /** An id is an ASCII letter and at most 63 letters, digits, hyphens and underscores. */
  lemma IdsAreThePattern(id: string)
    ensures ValidId(id) <==> 1 <= |id| <= 64 && IsLetter(id[0]) && forall i :: 1 <= i < |id| ==> IsIdChar(id[i])
  {
    forall i | 0 <= i < |id| ensures id[i] in id {}
    if 1 <= |id| && IsLetter(id[0]) && forall i :: 1 <= i < |id| ==> IsIdChar(id[i]) {
      forall c | c in id ensures Letter(c) || Digit(c) || c == '_' || c == '-' {
        var i :| 0 <= i < |id| && id[i] == c;
        assert IsIdChar(id[i]);
      }
    }
  }

  /** A tag that defines an image under this id. */
  predicate Names(tag: Tag, id: string) {
    tag.id == id && ValidId(id) && tag.definition.Some?
  }

  /** A tag that defines it otherwise, or not validly. */
  predicate Contradicts(tag: Tag, id: string, prompt: string, refs: seq<string>) {
    Names(tag, id) && (tag.definition.value.prompt != prompt || tag.definition.value.refs != refs || tag.invalid)
  }

  ghost predicate FirstNamed(tags: seq<Tag>, i: int, id: string) {
    && 0 <= i < |tags| && Names(tags[i], id)
    && forall j :: 0 <= j < i ==> !Names(tags[j], id)
  }

  ghost predicate ContradictedFrom(tags: seq<Tag>, i: nat, id: string, prompt: string, refs: seq<string>) {
    exists j :: i <= j < |tags| && Contradicts(tags[j], id, prompt, refs)
  }

  /** The row of a first definition, before its references are looked at. */
  ghost predicate StoredAs(tags: seq<Tag>, i: nat, id: string, row: Image)
    requires FirstNamed(tags, i, id)
  {
    var d := tags[i].definition.value;
    && row.prompt == d.prompt && row.refs == d.refs && row.waitingFor == [] && row.output.None? && !row.attempted
    && (if tags[i].invalid then row.state == Error && row.error == Some(InvalidDefinition) else row.state == Queued && row.error.None?)
    && (row.conflict <==> ContradictedFrom(tags, i + 1, id, d.prompt, d.refs))
  }

  // ---------------------------------------------------------------- tag by tag

  lemma FirstNamedLonger(tags: seq<Tag>, last: Tag, i: int, id: string)
    ensures 0 <= i < |tags| ==> (FirstNamed(tags + [last], i, id) <==> FirstNamed(tags, i, id))
    ensures i == |tags| ==> (FirstNamed(tags + [last], i, id) <==> Names(last, id) && forall j :: 0 <= j < |tags| ==> !Names(tags[j], id))
  {
    var all := tags + [last];
    assert forall j :: 0 <= j < |tags| ==> all[j] == tags[j];
    assert all[|tags|] == last;
  }

  lemma ContradictedLonger(tags: seq<Tag>, last: Tag, i: nat, id: string, prompt: string, refs: seq<string>)
    requires i <= |tags|
    ensures ContradictedFrom(tags + [last], i, id, prompt, refs)
      <==> ContradictedFrom(tags, i, id, prompt, refs) || Contradicts(last, id, prompt, refs)
  {
    var all := tags + [last];
    assert forall j :: 0 <= j < |tags| ==> all[j] == tags[j];
    assert all[|tags|] == last;
    if ContradictedFrom(tags, i, id, prompt, refs) {
      var j :| i <= j < |tags| && Contradicts(tags[j], id, prompt, refs);
      assert Contradicts(all[j], id, prompt, refs);
    }
  }

  ghost predicate Unnamed(tags: seq<Tag>, id: string) {
    forall i :: 0 <= i < |tags| ==> !Names(tags[i], id)
  }

  lemma FirstIsOne(tags: seq<Tag>, i: int, j: int, id: string)
    requires FirstNamed(tags, i, id) && FirstNamed(tags, j, id)
    ensures i == j
  {}

  /** After some tags an id without a row has none exactly if none of them names it, and else that of the first one. */
  lemma {:induction false} TagsStore(w: World, s: string, tags: seq<Tag>, id: string)
    requires s in w.sessions && !HasRow(w.sessions, (s, id))
    ensures var ss := AcceptTags(w, s, tags).sessions;
      && s in ss && (HasRow(ss, (s, id)) <==> !Unnamed(tags, id))
      && forall i :: FirstNamed(tags, i, id) ==> HasRow(ss, (s, id)) && StoredAs(tags, i, id, Row(ss, (s, id)))
  {
    if tags != [] {
      var front, last := tags[..|tags| - 1], tags[|tags| - 1];
      assert tags == front + [last];
      TagsStore(w, s, front, id);
      LastTagStores(AcceptTags(w, s, front), s, front, last, id);
    }
  }

  lemma LastTagStores(mid: World, s: string, front: seq<Tag>, last: Tag, id: string)
    requires s in mid.sessions && (HasRow(mid.sessions, (s, id)) <==> !Unnamed(front, id))
    requires forall i :: FirstNamed(front, i, id) ==> HasRow(mid.sessions, (s, id)) && StoredAs(front, i, id, Row(mid.sessions, (s, id)))
    ensures var ss, tags := AcceptTag(mid, s, last).sessions, front + [last];
      && s in ss && (HasRow(ss, (s, id)) <==> !Unnamed(tags, id))
      && forall i :: FirstNamed(tags, i, id) ==> HasRow(ss, (s, id)) && StoredAs(tags, i, id, Row(ss, (s, id)))
  {
    var tags := front + [last];
    assert tags[|front|] == last && forall j :: 0 <= j < |front| ==> tags[j] == front[j];
    if HasRow(mid.sessions, (s, id)) {
      TagMarks(mid, s, last, id);
      forall i | FirstNamed(tags, i, id) ensures StoredAs(tags, i, id, Row(AcceptTag(mid, s, last).sessions, (s, id))) {
        FirstNamedLonger(front, last, i, id);
        assert i < |front|;
        MarkedIsStored(mid, s, front, last, i, id);
      }
    } else {
      FirstTagStores(mid, s, front, last, id);
    }
  }

  lemma MarkedIsStored(mid: World, s: string, front: seq<Tag>, last: Tag, i: nat, id: string)
    requires FirstNamed(front, i, id) && FirstNamed(front + [last], i, id)
    requires HasRow(mid.sessions, (s, id)) && StoredAs(front, i, id, Row(mid.sessions, (s, id)))
    requires HasRow(AcceptTag(mid, s, last).sessions, (s, id))
    requires Row(AcceptTag(mid, s, last).sessions, (s, id))
      == Marked(Row(mid.sessions, (s, id)), Redefines(last, id, Row(mid.sessions, (s, id))))
    ensures StoredAs(front + [last], i, id, Row(AcceptTag(mid, s, last).sessions, (s, id)))
  {
    var d := front[i].definition.value;
    ContradictedLonger(front, last, i + 1, id, d.prompt, d.refs);
    assert Redefines(last, id, Row(mid.sessions, (s, id))) <==> Contradicts(last, id, d.prompt, d.refs);
  }

  lemma FirstTagStores(mid: World, s: string, front: seq<Tag>, last: Tag, id: string)
    requires s in mid.sessions && !HasRow(mid.sessions, (s, id)) && Unnamed(front, id)
    ensures var ss, tags := AcceptTag(mid, s, last).sessions, front + [last];
      && s in ss && (HasRow(ss, (s, id)) <==> !Unnamed(tags, id))
      && forall i :: FirstNamed(tags, i, id) ==> HasRow(ss, (s, id)) && StoredAs(tags, i, id, Row(ss, (s, id)))
  {
    var tags := front + [last];
    assert tags[|front|] == last && forall j :: 0 <= j < |front| ==> tags[j] == front[j];
    TagStores(mid, s, last, id);
    if Names(last, id) {
      assert FirstNamed(tags, |front|, id);
      forall i | FirstNamed(tags, i, id) ensures StoredAs(tags, i, id, Row(AcceptTag(mid, s, last).sessions, (s, id))) {
        FirstIsOne(tags, i, |front|, id);
        NewIsStored(tags, i, id);
      }
    }
  }

  lemma TagStores(mid: World, s: string, tag: Tag, id: string)
    requires s in mid.sessions && !HasRow(mid.sessions, (s, id))
    ensures var ss := AcceptTag(mid, s, tag).sessions;
      && s in ss && (HasRow(ss, (s, id)) <==> Names(tag, id))
      && (Names(tag, id) ==> Row(ss, (s, id)) == NewImage(tag.definition.value, tag.invalid))
  {
    if TagSaves(mid.sessions, s, tag) { SavedFacts(mid.sessions, (s, tag.id), TagImage(mid.sessions, s, tag)); }
  }

  lemma NewIsStored(tags: seq<Tag>, i: nat, id: string)
    requires FirstNamed(tags, i, id) && i == |tags| - 1
    ensures StoredAs(tags, i, id, NewImage(tags[i].definition.value, tags[i].invalid))
  {}

  /** Tags change nothing but the rows of their thread, and append to the order of rows. */
  lemma {:induction false} TagsElsewhere(w: World, s: string, tags: seq<Tag>)
    requires s in w.sessions
    ensures var w' := AcceptTags(w, s, tags);
      && w' == w.(sessions := w'.sessions, order := w'.order) && w.order <= w'.order
      && w'.sessions.Keys == w.sessions.Keys
      && w'.sessions[s] == w.sessions[s].(images := w'.sessions[s].images, version := w'.sessions[s].version)
      && forall r :: r in w.sessions && r != s ==> r in w'.sessions && w'.sessions[r] == w.sessions[r]
  {
    if tags != [] { TagsElsewhere(w, s, tags[..|tags| - 1]); }
  }

  // ---------------------------------------------------------------- the accepted message

  /** The reasons for which resolution fails a row that was queued. */
  ghost predicate UnresolvedFor(w: World, s: string, row: Image) {
    || row.error == Some(DependencyCycle)
    || (row.error == Some(MissingDependency) && exists r :: r in IdRefs(row.refs) && !HasRow(w.sessions, (s, r)))
    || (row.error == Some(DependencyFailed)
        && exists r :: r in IdRefs(row.refs) && HasRow(w.sessions, (s, r)) && Row(w.sessions, (s, r)).state == Error)
  }

  /** A stored row after resolution: still queued, or failed because of its references. */
  ghost predicate Settled(w: World, s: string, stored: Image, row: Image) {
    if stored.state != Queued then row == stored
    else
      && row == stored.(state := row.state, waitingFor := row.waitingFor, error := row.error)
      && (|| (row.state == Queued && row.error == stored.error && forall r :: r in row.waitingFor ==> r in IdRefs(row.refs))
          || (row.state == Error && row.waitingFor == [] && UnresolvedFor(w, s, row)))
  }

  lemma ResolutionSettles(mid: World, s: string, w': World, id: string)
    requires ResolvesTo(mid, s, w') && HasRow(mid.sessions, (s, id))
    ensures HasRow(w'.sessions, (s, id)) && Settled(w', s, Row(mid.sessions, (s, id)), Row(w'.sessions, (s, id)))
  {
    var before, after := mid.sessions[s].images, w'.sessions[s].images;
    assert Verdict(before, after, id);
    if HasState(before, id, Queued) && Doomed(before, id) {
      var code :| after[id] == FailedImage(before[id], code) && Explains(before, after, id, code);
      FailureExplained(before, after, id, code, w', s);
    }
  }

  lemma FailureExplained(before: Images, after: Images, id: string, code: ErrorCode, w': World, s: string)
    requires id in before && id in after && after[id] == FailedImage(before[id], code) && Explains(before, after, id, code)
    requires s in w'.sessions && w'.sessions[s].images == after && after.Keys == before.Keys
    ensures UnresolvedFor(w', s, after[id])
  {
    if code == MissingDependency {
      var r :| r in IdRefs(before[id].refs) && r !in before;
      assert r in IdRefs(after[id].refs) && !HasRow(w'.sessions, (s, r));
    }
    if code == DependencyFailed {
      var r :| r in IdRefs(before[id].refs) && HasState(after, r, Error);
      assert r in IdRefs(after[id].refs) && HasRow(w'.sessions, (s, r)) && Row(w'.sessions, (s, r)).state == Error;
    }
  }

  /** A first definition is stored as the message has it, then resolved; an id that no tag defines gets no row. */
  lemma AcceptStores(w: World, s: string, message: string, tags: seq<Tag>, w': World, id: string)
    requires Next(w, Accept(s, message, tags), w') && !HasRow(w.sessions, (s, id))
    ensures HasRow(w'.sessions, (s, id)) <==> exists i :: FirstNamed(tags, i, id)
    ensures forall i :: FirstNamed(tags, i, id) ==>
      HasRow(w'.sessions, (s, id)) && exists stored :: StoredAs(tags, i, id, stored) && Settled(w', s, stored, Row(w'.sessions, (s, id)))
  {
    var a := AcceptMessage(w, s, message);
    var mid := AcceptTags(a, s, tags);
    TagsStore(a, s, tags, id);
    SomeFirst(tags, id);
    if HasRow(mid.sessions, (s, id)) { ResolutionSettles(mid, s, w', id); }
    assert HasRow(w'.sessions, (s, id)) <==> HasRow(mid.sessions, (s, id)) by {
      assert w'.sessions[s].images.Keys == mid.sessions[s].images.Keys;
    }
  }

  lemma SomeFirst(tags: seq<Tag>, id: string)
    ensures (exists i :: FirstNamed(tags, i, id)) <==> !Unnamed(tags, id)
  {
    if i :| 0 <= i < |tags| && Names(tags[i], id) { LeastNamed(tags, i, id); }
  }

  lemma {:induction false} LeastNamed(tags: seq<Tag>, i: nat, id: string)
    requires i < |tags| && Names(tags[i], id)
    ensures exists k :: FirstNamed(tags, k, id)
  {
    if j :| 0 <= j < i && Names(tags[j], id) { LeastNamed(tags, j, id); } else { assert FirstNamed(tags, i, id); }
  }

  /** A row that was there keeps its definition, and is marked exactly if it was or if a tag contradicts it. */
  lemma AcceptMarks(w: World, s: string, message: string, tags: seq<Tag>, w': World, id: string)
    requires Next(w, Accept(s, message, tags), w') && HasRow(w.sessions, (s, id))
    ensures var row := Row(w.sessions, (s, id));
      HasRow(w'.sessions, (s, id)) &&
      Settled(w', s, row.(conflict := row.conflict || ContradictedFrom(tags, 0, id, row.prompt, row.refs)), Row(w'.sessions, (s, id)))
  {
    var row := Row(w.sessions, (s, id));
    var a := AcceptMessage(w, s, message);
    assert HasRow(a.sessions, (s, id)) && Row(a.sessions, (s, id)) == row;
    TagsMark(a, s, tags, id);
    RedefinedIsContradicted(tags, id, row);
    ResolutionSettles(AcceptTags(a, s, tags), s, w', id);
  }

  lemma RedefinedIsContradicted(tags: seq<Tag>, id: string, row: Image)
    ensures RedefinedBy(tags, id, row) <==> ContradictedFrom(tags, 0, id, row.prompt, row.refs)
  {
    forall i | 0 <= i < |tags| ensures Redefines(tags[i], id, row) <==> Contradicts(tags[i], id, row.prompt, row.refs) {}
  }

  /** The message is recorded; all else but the rows of the thread is left alone, and new rows come last. */
  lemma AcceptKeepsTheRest(w: World, s: string, message: string, tags: seq<Tag>, w': World)
    requires Next(w, Accept(s, message, tags), w')
    ensures w' == w.(sessions := w'.sessions, order := w'.order) && w.order <= w'.order
    ensures w'.sessions.Keys == w.sessions.Keys
    ensures forall r :: r in w.sessions && r != s ==> r in w'.sessions && w'.sessions[r] == w.sessions[r]
    ensures w'.sessions[s] == w.sessions[s].(messages := w.sessions[s].messages + {message},
      images := w'.sessions[s].images, version := w'.sessions[s].version)
  {
    TagsElsewhere(AcceptMessage(w, s, message), s, tags);
  }
}
