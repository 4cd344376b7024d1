/** src/components/ChatInterface.tsx: the stand-alone chat with file attachments. A submit
    posts the user's message with its attachments, and a timer later adds a fixed reply. */
module ChatInterface {
  import opened Wrappers
  import opened Text

  /** A dropped `File`: what the component reads of it. */
  datatype File = File(name: string, fileType: string, size: nat)

  /** The `{ name, url, type }` entry a message keeps per attachment. */
  datatype Attachment = Attachment(name: string, url: string, fileType: string)

  /** A chat message without its id and timestamp; only user messages carry attachments. */
  datatype Message = Message(role: Speaker, content: string, attachments: Option<seq<Attachment>>)

  /** The dropzone's `maxSize`: 5 MB. */
  const MaxSize := 5242880

  /** The reply the timer adds after every submit. */
  const FixedReply := "I am your " + "AI travel " + "assistant. " + "How can I " + "help you " +
    "plan your " + "next " + "adventure?"

  // ---------------------------------------------------------------------------
  // Attachments

  /** The files the dropzone accepts and hands to `onDrop`, in the order dropped: those of
      at most `maxSize` bytes. */
  function Accepted(files: seq<File>): (r: seq<File>)
    ensures forall i :: 0 <= i < |r| ==> r[i].size <= MaxSize
    ensures forall f :: f in r <==> f in files && f.size <= MaxSize
    ensures |r| <= |files|
  {
    if files == [] then []
    else
      var init := files[..|files| - 1];
      var last := files[|files| - 1];
      assert files == init + [last];
      Accepted(init) + (if last.size <= MaxSize then [last] else [])
  }

  /** Acceptance keeps the order of the drop: accepting two runs of files one after the
      other is accepting each and joining the results. */
  lemma {:induction false} AcceptedAppend(a: seq<File>, b: seq<File>)
    ensures Accepted(a + b) == Accepted(a) + Accepted(b)
  {
    if b == [] {
      assert a + b == a;
    } else {
      var init := b[..|b| - 1];
      var last := b[|b| - 1];
      var tail := if last.size <= MaxSize then [last] else [];
      AcceptedAppend(a, init);
      assert (a + b)[..|a + b| - 1] == a + init;
      assert (a + b)[|a + b| - 1] == last;
      calc {
        Accepted(a + b);
        Accepted(a + init) + tail;
        Accepted(a) + Accepted(init) + tail;
        Accepted(a) + Accepted(b);
      }
    }
  }

  /** Files within the size limit all arrive, in order. */
  lemma {:induction false} SmallFilesAllAccepted(files: seq<File>)
    requires forall i :: 0 <= i < |files| ==> files[i].size <= MaxSize
    ensures Accepted(files) == files
  {
    if files != [] {
      SmallFilesAllAccepted(files[..|files| - 1]);
    }
  }

  /** `prev.filter((_, i) => i !== index)`. */
  function WithoutIndex<T>(xs: seq<T>, index: int): seq<T> {
    if xs == [] then []
    else
      var last := |xs| - 1;
      WithoutIndex(xs[..last], index) + (if last != index then [xs[last]] else [])
  }

  /** Removing an attachment drops exactly the one at that position and keeps the others in
      order; a position outside the list removes nothing. */
  lemma {:induction false} WithoutIndexSplices<T>(xs: seq<T>, index: int)
    ensures 0 <= index < |xs| ==> WithoutIndex(xs, index) == xs[..index] + xs[index + 1..]
    ensures !(0 <= index < |xs|) ==> WithoutIndex(xs, index) == xs
  {
    if xs != [] {
      var last := |xs| - 1;
      var init := xs[..last];
      WithoutIndexSplices(init, index);
      if index == last {
        assert xs[..index] + xs[index + 1..] == init;
      } else if 0 <= index < last {
        assert xs[..index] + xs[index + 1..] == init[..index] + init[index + 1..] + [xs[last]];
      } else {
        assert init + [xs[last]] == xs;
      }
    }
  }

  /** The message entry of an attachment. `URL.createObjectURL` is outside the model, so
      the URL it makes for the file's position is given. */
  function AttachmentOf(file: File, url: string): Attachment {
    Attachment(file.name, url, file.fileType)
  }

  /** `attachments.map(file => ({ name, url, type }))`, with the object URLs of the files. */
  function AttachmentsOf(files: seq<File>, urls: seq<string>): (r: seq<Attachment>)
    requires |urls| == |files|
    ensures |r| == |files|
    ensures forall i :: 0 <= i < |r| ==>
      r[i].name == files[i].name && r[i].url == urls[i] && r[i].fileType == files[i].fileType
  {
    seq(|files|, i requires 0 <= i < |files| => AttachmentOf(files[i], urls[i]))
  }

  // ---------------------------------------------------------------------------
  // The component's state

  datatype ChatState = ChatState(
    messages: seq<Message>,
    input: string,
    isLoading: bool,
    attachments: seq<File>,
    pendingReplies: nat)

  /** A submit posts nothing when the input is blank and there is no attachment. */
  predicate NothingToSend(s: ChatState) {
    IsBlank(s.input) && s.attachments == []
  }

  /** `handleSubmit` up to the timer it schedules. */
  function AfterSubmit(s: ChatState, urls: seq<string>): ChatState
    requires |urls| == |s.attachments|
  {
    if NothingToSend(s) then s
    else
      var user := Message(User, s.input, Some(AttachmentsOf(s.attachments, urls)));
      ChatState(s.messages + [user], "", true, [], s.pendingReplies + 1)
  }

  /** A submit with nothing to send changes nothing; otherwise it appends one user message
      with the untrimmed input and one entry per pending file, in order, clears the input
      and the attachments, and schedules one reply while loading. */
  lemma SubmitShape(s: ChatState, urls: seq<string>)
    requires |urls| == |s.attachments|
    ensures NothingToSend(s) ==> AfterSubmit(s, urls) == s
    ensures !NothingToSend(s) ==>
      var r := AfterSubmit(s, urls);
      r.messages[..|s.messages|] == s.messages && |r.messages| == |s.messages| + 1 &&
      r.messages[|s.messages|].role == User && r.messages[|s.messages|].content == s.input &&
      r.messages[|s.messages|].attachments.Some? &&
      |r.messages[|s.messages|].attachments.value| == |s.attachments| &&
      (forall i :: 0 <= i < |s.attachments| ==>
        r.messages[|s.messages|].attachments.value[i].name == s.attachments[i].name) &&
      r.input == "" && r.attachments == [] && r.isLoading && r.pendingReplies == s.pendingReplies + 1
  {
  }

  /** The timer's callback: the fixed reply goes after everything posted so far and loading
      ends. */
  function AfterReply(s: ChatState): ChatState
    requires s.pendingReplies > 0
  {
    s.(messages := s.messages + [Message(Assistant, FixedReply, None)], isLoading := false,
       pendingReplies := s.pendingReplies - 1)
  }

  /** A submit followed by its reply leaves two messages, the user's and then the fixed
      reply, and loading off. */
  lemma SubmitThenReply(s: ChatState, urls: seq<string>)
    requires |urls| == |s.attachments| && !NothingToSend(s)
    ensures var r := AfterReply(AfterSubmit(s, urls));
      |r.messages| == |s.messages| + 2 && r.messages[..|s.messages|] == s.messages &&
      r.messages[|s.messages|].role == User && r.messages[|s.messages| + 1].role == Assistant &&
      r.messages[|s.messages| + 1].content == FixedReply &&
      !r.isLoading && r.pendingReplies == s.pendingReplies
  {
  }

  class Chat {
    var messages: seq<Message>
    var input: string
    var isLoading: bool
    var attachments: seq<File>
    var pendingReplies: nat

    function State(): ChatState
      reads this
    {
      ChatState(messages, input, isLoading, attachments, pendingReplies)
    }

    /** Every file the chat holds was accepted by the dropzone. */
    predicate Valid()
      reads this
    {
      forall i :: 0 <= i < |attachments| ==> attachments[i].size <= MaxSize
    }

    constructor ()
      ensures Valid() && State() == ChatState([], "", false, [], 0)
    {
      messages := [];
      input := "";
      isLoading := false;
      attachments := [];
      pendingReplies := 0;
    }

    /** The input's `onChange`. */
    method Type(text: string)
      modifies this
      ensures State() == old(State()).(input := text)
    {
      input := text;
    }

    /** `onDrop`: the accepted files go after the ones already attached, in order. */
    method Drop(files: seq<File>)
      requires Valid()
      modifies this
      ensures Valid() && State() == old(State()).(attachments := old(attachments) + Accepted(files))
    {
      attachments := attachments + Accepted(files);
    }

    /** `removeAttachment(index)`. */
    method RemoveAttachment(index: int)
      requires Valid()
      modifies this
      ensures Valid() && State() == old(State()).(attachments := WithoutIndex(old(attachments), index))
    {
      WithoutIndexSplices(attachments, index);
      attachments := WithoutIndex(attachments, index);
    }

    /** The send button is enabled when not loading and there is something to send. */
    predicate CanSubmit()
      reads this
    {
      !isLoading && !NothingToSend(State())
    }

    /** `handleSubmit`, given the object URLs made for the attached files. */
    method Submit(urls: seq<string>)
      requires Valid() && |urls| == |attachments|
      modifies this
      ensures Valid() && State() == AfterSubmit(old(State()), urls)
    {
      if IsBlank(input) && attachments == [] {
        return;
      }
      var user := Message(User, input, Some(AttachmentsOf(attachments, urls)));
      messages := messages + [user];
      input := "";
      attachments := [];
      isLoading := true;
      pendingReplies := pendingReplies + 1;
    }

    /** The one-second timeout of a submit fires. */
    method Reply()
      requires pendingReplies > 0
      modifies this
      ensures State() == AfterReply(old(State()))
    {
      messages := messages + [Message(Assistant, FixedReply, None)];
      isLoading := false;
      pendingReplies := pendingReplies - 1;
    }
  }
}
