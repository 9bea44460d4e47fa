/** app/write/page.tsx: the post editor. Its state is a class whose fields
    are the page's React state; the event handlers are its methods. The
    tag-list updates and the two markdown splices of the toolbar are
    functions the handlers apply. */
module WritePage {
  import opened Wrappers
  import opened Text
  import opened Types
  import opened Api

  const TitleRequired := "제목을 입력해주세요."
  const ContentRequired := "내용을 입력해주세요."
  const PublishFailed := "글 발행에 실패했습니다. 로그인이 필요할 수 있습니다."
  /** What `wrapText` wraps when nothing is selected. */
  const Placeholder := "텍스트"

  predicate NoDuplicates(tags: seq<string>) {
    forall i, j :: 0 <= i < j < |tags| ==> tags[i] != tags[j]
  }

  // ----- the tag list -----

  /** `tags.includes(tag) ? tags : [...tags, tag]`. */
  function AddTag(tags: seq<string>, tag: string): (r: seq<string>)
    ensures tags <= r && |r| <= |tags| + 1
    ensures forall t :: t in r <==> t in tags || t == tag
    ensures tag in r
    ensures NoDuplicates(tags) ==> NoDuplicates(r)
  {
    if tag in tags then tags else tags + [tag]
  }

  /** Adding a tag a second time changes nothing. */
  lemma AddTagIdempotent(tags: seq<string>, tag: string)
    ensures AddTag(AddTag(tags, tag), tag) == AddTag(tags, tag)
  {
  }

  /** `tags.filter((tag) => tag !== x)`. */
  function WithoutTag(tags: seq<string>, x: string): (r: seq<string>)
    ensures x !in r
    ensures forall t :: t != x ==> multiset(r)[t] == multiset(tags)[t]
    ensures |r| <= |tags|
  {
    if tags == [] then []
    else
      assert tags == [tags[0]] + tags[1..];
      (if tags[0] == x then [] else [tags[0]]) + WithoutTag(tags[1..], x)
  }

  /** Filtering distributes over concatenation, so the remaining tags keep
      their relative order. */
  lemma {:induction false} WithoutTagAppend(a: seq<string>, b: seq<string>, x: string)
    ensures WithoutTag(a + b, x) == WithoutTag(a, x) + WithoutTag(b, x)
  {
    if a == [] {
      assert a + b == b;
    } else {
      assert (a + b)[0] == a[0];
      assert (a + b)[1..] == a[1..] + b;
      WithoutTagAppend(a[1..], b, x);
    }
  }

  /** Removing a tag that is not there changes nothing. */
  lemma {:induction false} WithoutAbsentTag(tags: seq<string>, x: string)
    requires x !in tags
    ensures WithoutTag(tags, x) == tags
  {
    if tags != [] {
      assert x !in tags[1..];
      WithoutAbsentTag(tags[1..], x);
      assert tags == [tags[0]] + tags[1..];
    }
  }

  /** Removing a tag keeps a duplicate-free list duplicate-free. */
  lemma {:induction false} WithoutTagNoDuplicates(tags: seq<string>, x: string)
    requires NoDuplicates(tags)
    ensures NoDuplicates(WithoutTag(tags, x))
  {
    if tags != [] {
      WithoutTagNoDuplicates(tags[1..], x);
      var rest := WithoutTag(tags[1..], x);
      assert multiset(tags[1..])[tags[0]] == 0;
      if tags[0] != x {
        assert tags[0] !in rest by {
          assert multiset(rest)[tags[0]] == multiset(tags[1..])[tags[0]];
        }
      }
    }
  }

  /** Removing a freshly added tag gives the list back. */
  lemma RemoveUndoesAdd(tags: seq<string>, tag: string)
    requires tag !in tags
    ensures WithoutTag(AddTag(tags, tag), tag) == tags
  {
    WithoutTagAppend(tags, [tag], tag);
    WithoutAbsentTag(tags, tag);
    assert WithoutTag([tag], tag) == [] + WithoutTag([], tag);
  }

  // ----- the markdown toolbar -----

  /** The textarea's selection, as its `selectionStart` and `selectionEnd`. */
  datatype Selection = Selection(start: nat, end: nat)

  /** A selection the browser can report for a textarea holding `content`. */
  predicate WithinText(sel: Selection, content: string) {
    sel.start <= sel.end <= |content|
  }

  /** The new content and the selection range set afterwards. */
  datatype Splice = Splice(content: string, selection: Selection)

  /** `insertMarkdown`: the selection is replaced by `markdown` and the
      cursor is put after it. */
  function InsertAt(content: string, sel: Selection, markdown: string): (r: Splice)
    ensures r.selection == Selection(sel.start + |markdown|, sel.start + |markdown|)
    ensures WithinText(sel, content) ==>
              |r.content| == |content| - (sel.end - sel.start) + |markdown| &&
              r.content[..sel.start] == content[..sel.start] &&
              r.content[sel.start..sel.start + |markdown|] == markdown &&
              r.content[sel.start + |markdown|..] == content[sel.end..] &&
              WithinText(r.selection, r.content)
  {
    var newContent := Slice(content, 0, sel.start) + markdown + SliceFrom(content, sel.end);
    var cursor := sel.start + |markdown|;
    Splice(newContent, Selection(cursor, cursor))
  }

  /** Putting the replaced text back over the inserted markdown restores
      the content. */
  lemma InsertUndo(content: string, sel: Selection, markdown: string)
    requires WithinText(sel, content)
    ensures var r := InsertAt(content, sel, markdown);
            InsertAt(r.content, Selection(sel.start, sel.start + |markdown|), content[sel.start..sel.end]).content == content
  {
  }

  /** The text `wrapText` wraps: the selection, or the placeholder when
      the selection is empty. */
  function WrappedText(content: string, sel: Selection): (t: string)
    ensures t != []
    ensures WithinText(sel, content) && sel.start < sel.end ==> t == content[sel.start..sel.end]
    ensures sel.end <= sel.start ==> t == Placeholder
  {
    var selected := Slice(content, sel.start, sel.end);
    if selected == [] then Placeholder else selected
  }

  /** `wrapText`: the wrapper goes on both sides of the wrapped text, and
      the new selection covers exactly that text. */
  function Wrap(content: string, sel: Selection, wrapper: string): (r: Splice)
    ensures var text := WrappedText(content, sel);
            r.selection == Selection(sel.start + |wrapper|, sel.start + |wrapper| + |text|)
    ensures WithinText(sel, content) ==>
              var text := WrappedText(content, sel);
              var s := r.selection;
              WithinText(s, r.content) &&
              |r.content| == |content| - (sel.end - sel.start) + 2 * |wrapper| + |text| &&
              r.content[..sel.start] == content[..sel.start] &&
              r.content[sel.start..s.start] == wrapper &&
              r.content[s.start..s.end] == text &&
              r.content[s.end..s.end + |wrapper|] == wrapper &&
              r.content[s.end + |wrapper|..] == content[sel.end..]
  {
    var text := WrappedText(content, sel);
    var newContent := Slice(content, 0, sel.start) + (wrapper + (text + (wrapper + SliceFrom(content, sel.end))));
    Splice(newContent, Selection(sel.start + |wrapper|, sel.start + |wrapper| + |text|))
  }

  /** Dropping the two wrappers from the result of wrapping a non-empty
      selection gives the content back. */
  lemma UnwrapRestores(content: string, sel: Selection, wrapper: string)
    requires WithinText(sel, content) && sel.start < sel.end
    ensures var r := Wrap(content, sel, wrapper);
            r.content[..sel.start] + r.content[r.selection.start..r.selection.end] + r.content[r.selection.end + |wrapper|..] == content
  {
  }

  // ----- the page -----

  class Editor {
    var title: string
    var content: string
    var tags: seq<string>
    var tagInput: string
    var isPublishModalOpen: bool
    var description: string
    var isPublic: bool
    var isSubmitting: bool
    var error: string

    constructor ()
      ensures title == "" && content == "" && tags == [] && tagInput == ""
      ensures !isPublishModalOpen && description == "" && isPublic
      ensures !isSubmitting && error == ""
    {
      title := "";
      content := "";
      tags := [];
      tagInput := "";
      isPublishModalOpen := false;
      description := "";
      isPublic := true;
      isSubmitting := false;
      error := "";
    }

    /** `handleTagKeyDown`: Enter with a non-blank input adds the trimmed
        input unless it is already a tag, and empties the input either
        way; any other key, or a blank input, changes nothing. */
    method HandleTagKeyDown(key: string)
      modifies this`tags, this`tagInput
      ensures key == "Enter" && Trim(old(tagInput)) != [] ==>
                tags == AddTag(old(tags), Trim(old(tagInput))) && tagInput == ""
      ensures !(key == "Enter" && Trim(old(tagInput)) != []) ==>
                tags == old(tags) && tagInput == old(tagInput)
      ensures NoDuplicates(old(tags)) ==> NoDuplicates(tags)
    {
      if key == "Enter" && Trim(tagInput) != [] {
        var tag := Trim(tagInput);
        if tag !in tags {
          tags := tags + [tag];
        }
        tagInput := "";
      }
    }

    /** `removeTag`. */
    method RemoveTag(tag: string)
      modifies this`tags
      ensures tags == WithoutTag(old(tags), tag)
      ensures NoDuplicates(old(tags)) ==> NoDuplicates(tags)
    {
      if NoDuplicates(tags) {
        WithoutTagNoDuplicates(tags, tag);
      }
      tags := WithoutTag(tags, tag);
    }

    /** `handlePublish` up to the call: the title is checked before the
        content, and a blank one stops with its message; otherwise the
        error is cleared, the page is marked as submitting and the request
        carries the untrimmed title and content. */
    method HandlePublish() returns (request: Option<PostRequest>)
      modifies this`error, this`isSubmitting
      ensures IsBlank(title) ==> request.None? && error == TitleRequired && isSubmitting == old(isSubmitting)
      ensures !IsBlank(title) && IsBlank(content) ==>
                request.None? && error == ContentRequired && isSubmitting == old(isSubmitting)
      ensures !IsBlank(title) && !IsBlank(content) ==>
                request == Some(PostRequest(title, content, Some(description), None, Some(isPublic), Some(tags), None)) &&
                error == "" && isSubmitting
    {
      var trimmedTitle, trimmedContent := Trim(title), Trim(content);
      if trimmedTitle == [] {
        error := TitleRequired;
        return None;
      }
      if trimmedContent == [] {
        error := ContentRequired;
        return None;
      }
      isSubmitting := true;
      error := "";
      request := Some(PostRequest(title, content, Some(description), None, Some(isPublic), Some(tags), None));
    }

    /** `handlePublish` once `createPost` settles: go to the new post, or
        show the error; the page stops submitting either way. */
    method PublishSettled(outcome: Result<ApiResponse<Post>, Thrown>) returns (navigateTo: Option<string>)
      modifies this`error, this`isSubmitting
      ensures !isSubmitting
      ensures outcome.Success? ==> navigateTo == Some("/post/" + NatToDecimal(outcome.value.data.id)) && error == old(error)
      ensures outcome.Failure? ==> navigateTo.None? && error == CaughtMessage(outcome.error, PublishFailed)
    {
      if outcome.Success? {
        navigateTo := Some("/post/" + NatToDecimal(outcome.value.data.id));
      } else {
        navigateTo := None;
        error := CaughtMessage(outcome.error, PublishFailed);
      }
      isSubmitting := false;
    }

    /** `insertMarkdown`: without a textarea nothing happens; the returned
        selection is the one set afterwards. */
    method InsertMarkdown(textarea: Option<Selection>, markdown: string) returns (selection: Option<Selection>)
      modifies this`content
      ensures textarea.None? ==> content == old(content) && selection.None?
      ensures textarea.Some? ==>
                content == InsertAt(old(content), textarea.value, markdown).content &&
                selection == Some(InsertAt(old(content), textarea.value, markdown).selection)
    {
      if textarea.None? {
        return None;
      }
      var r := InsertAt(content, textarea.value, markdown);
      content := r.content;
      selection := Some(r.selection);
    }

    /** `wrapText`: without a textarea nothing happens. */
    method WrapText(textarea: Option<Selection>, wrapper: string) returns (selection: Option<Selection>)
      modifies this`content
      ensures textarea.None? ==> content == old(content) && selection.None?
      ensures textarea.Some? ==>
                content == Wrap(old(content), textarea.value, wrapper).content &&
                selection == Some(Wrap(old(content), textarea.value, wrapper).selection)
    {
      if textarea.None? {
        return None;
      }
      var r := Wrap(content, textarea.value, wrapper);
      content := r.content;
      selection := Some(r.selection);
    }
  }
}
