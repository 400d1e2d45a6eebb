/**
 * Message dumps: `CreateDumpMessageAsync` orders the messages by id
 * (`OrderBy(x => x.Id)`, a stable sort) before compiling the transcript, and
 * `DumpMessageFromStringAsync` attaches the transcript as `messages.txt`,
 * adding a "View online" link only when the paste upload succeeded.
 */
module LogDump {

  import opened Discord

  predicate SortedById(s: seq<Message>) {
    forall i, j :: 0 <= i < j < |s| ==> s[i].id <= s[j].id
  }

  /** The messages of `s` whose id is `v`, in their order in `s`. */
  function WithId(s: seq<Message>, v: Id): (r: seq<Message>)
    ensures forall x :: x in r ==> x in s && x.id == v
    ensures |r| <= |s|
  {
    if s == [] then []
    else if s[0].id == v then [s[0]] + WithId(s[1..], v)
    else WithId(s[1..], v)
  }

  /** A message no later than the head of a sorted sequence can lead it. */
  lemma PrependSorted(x: Message, s: seq<Message>)
    requires SortedById(s)
    requires s != [] ==> x.id <= s[0].id
    ensures SortedById([x] + s)
  {
  }

  /** `m` placed before the first message of `s` whose id is not smaller. */
  function Insert(m: Message, s: seq<Message>): (r: seq<Message>)
    requires SortedById(s)
    ensures SortedById(r)
    ensures multiset(r) == multiset(s) + multiset{m}
    ensures r[0] == m || (s != [] && r[0] == s[0])
  {
    if s == [] || m.id <= s[0].id then
      PrependSorted(m, s);
      [m] + s
    else
      var rest := Insert(m, s[1..]);
      assert s == [s[0]] + s[1..];
      PrependSorted(s[0], rest);
      [s[0]] + rest
  }

  /** `messages.OrderBy(x => x.Id)`. */
  function OrderById(messages: seq<Message>): (r: seq<Message>)
    ensures SortedById(r)
    ensures multiset(r) == multiset(messages)
  {
    if messages == [] then []
    else
      assert messages == [messages[0]] + messages[1..];
      Insert(messages[0], OrderById(messages[1..]))
  }

  lemma {:induction false} InsertWithId(m: Message, s: seq<Message>, v: Id)
    requires SortedById(s)
    ensures WithId(Insert(m, s), v) == WithId([m] + s, v)
  {
    if s == [] || m.id <= s[0].id {
    } else {
      InsertWithId(m, s[1..], v);
      assert ([s[0]] + Insert(m, s[1..]))[1..] == Insert(m, s[1..]);
      assert ([m] + s)[1..] == s;
      assert ([m] + s[1..])[1..] == s[1..];
      if m.id == v {
        assert s[0].id != v;
      }
    }
  }

  /** The sort is stable: messages sharing an id keep their input order. */
  lemma {:induction false} OrderByIdStable(messages: seq<Message>, v: Id)
    ensures WithId(OrderById(messages), v) == WithId(messages, v)
  {
    if messages != [] {
      OrderByIdStable(messages[1..], v);
      InsertWithId(messages[0], OrderById(messages[1..]), v);
      assert ([messages[0]] + OrderById(messages[1..]))[1..] == OrderById(messages[1..]);
    }
  }

  lemma HeadHasItsId(s: seq<Message>)
    requires s != []
    ensures WithId(s, s[0].id) != []
  {
  }

  lemma WithIdNonEmpty(s: seq<Message>, v: Id)
    requires WithId(s, v) != []
    ensures exists i :: 0 <= i < |s| && s[i].id == v
  {
  }

  /**
   * A sequence sorted by id is determined by the order of each id's messages:
   * two of them that agree on every id are equal.
   */
  lemma {:induction false} SortedDeterminedByIds(r1: seq<Message>, r2: seq<Message>)
    requires SortedById(r1) && SortedById(r2)
    requires forall v: Id :: WithId(r1, v) == WithId(r2, v)
    ensures r1 == r2
    decreases |r1|
  {
    if r1 == [] {
      if r2 != [] {
        HeadHasItsId(r2);
        assert false;
      }
    } else {
      var v0 := r1[0].id;
      assert WithId(r1, v0) != [];
      WithIdNonEmpty(r2, v0);
      assert r2 != [];
      var w0 := r2[0].id;
      assert WithId(r2, w0) != [];
      WithIdNonEmpty(r1, w0);
      assert v0 == w0;
      assert WithId(r1, v0) == [r1[0]] + WithId(r1[1..], v0);
      assert WithId(r2, v0) == [r2[0]] + WithId(r2[1..], v0);
      assert WithId(r1, v0) == WithId(r2, v0);
      assert WithId(r1, v0)[0] == r1[0] && WithId(r2, v0)[0] == r2[0];
      forall v: Id
        ensures WithId(r1[1..], v) == WithId(r2[1..], v)
      {
        if v == v0 {
          assert WithId(r1, v)[1..] == WithId(r1[1..], v);
          assert WithId(r2, v)[1..] == WithId(r2[1..], v);
        } else {
          assert WithId(r1, v) == WithId(r1[1..], v);
        }
      }
      SortedDeterminedByIds(r1[1..], r2[1..]);
    }
  }

  /**
   * `OrderById` is THE stable sort by id: any sorted sequence that keeps
   * each id's messages in their input order is its result.
   */
  lemma OrderByIdUnique(messages: seq<Message>, r: seq<Message>)
    requires SortedById(r)
    requires forall v: Id :: WithId(r, v) == WithId(messages, v)
    ensures r == OrderById(messages)
  {
    forall v: Id ensures WithId(r, v) == WithId(OrderById(messages), v) {
      OrderByIdStable(messages, v);
    }
    SortedDeterminedByIds(r, OrderById(messages));
  }

  /**
   * The order in which the messages are handed over does not matter: two
   * inputs that agree on the order of each id's messages (with unique ids:
   * that hold the same messages) give the same transcript.
   */
  lemma OrderByIdIgnoresInputOrder(a: seq<Message>, b: seq<Message>)
    requires forall v: Id :: WithId(a, v) == WithId(b, v)
    ensures OrderById(a) == OrderById(b)
  {
    forall v: Id ensures WithId(OrderById(a), v) == WithId(b, v) {
      OrderByIdStable(a, v);
    }
    OrderByIdUnique(b, OrderById(a));
  }

  /** The paste service's answer. */
  datatype HasteResult = HasteResult(isSuccess: bool, rawUrl: string)

  /** The embed that links to the uploaded transcript. */
  function ViewOnline(url: string): Embed {
    Embed("[`\U{1F4C4} View online`](" + url + ")")
  }

  /**
   * `DumpMessageFromStringAsync`: the content, the transcript always attached
   * as `messages.txt`, the link embed only after a successful upload; and
   * the paste URL, whether or not the upload succeeded.
   */
  function DumpMessageFromString(messageLog: string, content: string, upload: string -> HasteResult): (r: (Payload, string))
    ensures r.0.content == content
    ensures r.0.files == [Attachment("messages.txt", messageLog)]
    ensures upload(messageLog).isSuccess ==> r.0.embeds == [ViewOnline(upload(messageLog).rawUrl)]
    ensures !upload(messageLog).isSuccess ==> r.0.embeds == []
    ensures r.1 == upload(messageLog).rawUrl
  {
    var msg := Payload(content, [], [Attachment("messages.txt", messageLog)]);
    var haste := upload(messageLog);
    var msg' := if haste.isSuccess then msg.(embeds := msg.embeds + [ViewOnline(haste.rawUrl)]) else msg;
    (msg', haste.rawUrl)
  }

  /**
   * `CreateDumpMessageAsync`: the transcript compiled from the messages in
   * id order. `compile` stands for `CompileMessagesAsync` on the channel.
   */
  function CreateDumpMessage(content: string, messages: seq<Message>, compile: seq<Message> -> string, upload: string -> HasteResult): (r: (Payload, string))
    ensures r.0.files == [Attachment("messages.txt", compile(OrderById(messages)))]
    ensures r.0.content == content
  {
    DumpMessageFromString(compile(OrderById(messages)), content, upload)
  }

  /** The dump does not depend on the order the messages were collected in. */
  lemma CreateDumpMessageIgnoresInputOrder(content: string, a: seq<Message>, b: seq<Message>, compile: seq<Message> -> string, upload: string -> HasteResult)
    requires forall v: Id :: WithId(a, v) == WithId(b, v)
    ensures CreateDumpMessage(content, a, compile, upload) == CreateDumpMessage(content, b, compile, upload)
  {
    OrderByIdIgnoresInputOrder(a, b);
  }
}
