/** The chat history shared through the chat context. */
module ChatContext {

  /** One chat entry, `{ text: message, sender }`. */
  datatype Message = Message(text: string, sender: string)

  /** The history a fresh provider starts with. */
  function InitialHistory(): (h: seq<Message>)
    ensures |h| == 0
  {
    []
  }

  /** `addMessage(message, sender)`: the new history is the old one with one entry appended. */
  function AddMessage(history: seq<Message>, message: string, sender: string): (r: seq<Message>)
    ensures |r| == |history| + 1
    ensures r[..|history|] == history
    ensures r[|history|] == Message(message, sender)
  {
    history + [Message(message, sender)]
  }

  /** The history after `addMessage` is called once for each `(message, sender)` pair, in order. */
  function AddMessages(history: seq<Message>, calls: seq<(string, string)>): seq<Message>
    decreases |calls|
  {
    if calls == [] then history
    else AddMessages(AddMessage(history, calls[0].0, calls[0].1), calls[1..])
  }

  /** Successive adds append their messages in call order and keep every earlier entry. */
  lemma {:induction false} AddMessagesAppends(history: seq<Message>, calls: seq<(string, string)>)
    ensures |AddMessages(history, calls)| == |history| + |calls|
    ensures AddMessages(history, calls)[..|history|] == history
    ensures forall j :: 0 <= j < |calls| ==>
      AddMessages(history, calls)[|history| + j] == Message(calls[j].0, calls[j].1)
    decreases |calls|
  {
    if calls != [] {
      var h1 := AddMessage(history, calls[0].0, calls[0].1);
      AddMessagesAppends(h1, calls[1..]);
      var r := AddMessages(history, calls);
      assert r == AddMessages(h1, calls[1..]);
      assert r[..|history|] == r[..|h1|][..|history|];
      forall j | 0 <= j < |calls|
        ensures r[|history| + j] == Message(calls[j].0, calls[j].1)
      {
        if j > 0 {
          assert r[|h1| + (j - 1)] == Message(calls[1..][j - 1].0, calls[1..][j - 1].1);
        } else {
          assert r[..|h1|][|history|] == r[|history|];
        }
      }
    }
  }
}
