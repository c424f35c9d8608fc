/** TestMqMedia.BuildTag: the string key of the subscription registry, and the sentinel
    tag that dispatch looks up for a package without a topic. */
module Tags {
  import opened Results
  import opened Messages

  /** The tag dispatch uses when a package carries no topic. */
  const NonExistingTag: string := "<non_existing_tag>"

  /** The topic as BuildTag writes it: a null topic is written as the empty string. */
  function TopicText(topic: Option<string>): string {
    topic.GetOr("")
  }

  /** `"[" + messageType.FullName + ":" + (topic ?? "") + "]"`: every tag is bracketed,
      and as long as its two parts plus the three delimiters. */
  function BuildTag(messageType: TypeName, topic: Option<string>): (tag: string)
    ensures |tag| == |messageType| + |TopicText(topic)| + 3
    ensures tag[0] == '[' && tag[|tag| - 1] == ']'
  {
    "[" + messageType + ":" + TopicText(topic) + "]"
  }

  /** A string that BuildTag produced for some message type and topic. */
  ghost predicate IsTag(s: string) {
    exists messageType, topic :: s == BuildTag(messageType, topic)
  }

  /** A full name as the C# compiler produces it contains no ':'. */
  predicate PlainTypeName(messageType: TypeName) {
    ':' !in messageType
  }

  /** A null topic and the empty topic give the same tag. */
  lemma NullTopicIsEmptyTopic(messageType: TypeName)
    ensures BuildTag(messageType, None) == BuildTag(messageType, Some(""))
  {
  }

  /** No tag is the sentinel, since every tag begins with '[' and the sentinel with '<'. */
  lemma TagIsNotSentinel(s: string)
    requires IsTag(s)
    ensures s != NonExistingTag
  {
    var messageType, topic :| s == BuildTag(messageType, topic);
    assert NonExistingTag[0] == '<';
  }

  /** Where the separator of a tag stands when the type name holds no ':'. */
  lemma SeparatorPosition(messageType: TypeName, topic: Option<string>)
    requires PlainTypeName(messageType)
    ensures var tag := BuildTag(messageType, topic);
      && |tag| == |messageType| + |TopicText(topic)| + 3
      && tag[1 + |messageType|] == ':'
      && (forall i :: 1 <= i < 1 + |messageType| ==> tag[i] != ':')
      && tag[1..1 + |messageType|] == messageType
      && tag[2 + |messageType|..|tag| - 1] == TopicText(topic)
  {
    var tag := BuildTag(messageType, topic);
    forall i | 1 <= i < 1 + |messageType|
      ensures tag[i] != ':'
    {
      assert tag[i] == messageType[i - 1];
    }
  }

  /** For plain type names the tag determines the type and the topic text, so two
      distinct subscription keys never share a registry entry. */
  lemma {:induction false} TagInjective(type1: TypeName, topic1: Option<string>, type2: TypeName, topic2: Option<string>)
    requires PlainTypeName(type1) && PlainTypeName(type2)
    requires BuildTag(type1, topic1) == BuildTag(type2, topic2)
    ensures type1 == type2 && TopicText(topic1) == TopicText(topic2)
  {
    var tag := BuildTag(type1, topic1);
    SeparatorPosition(type1, topic1);
    SeparatorPosition(type2, topic2);
    assert |type1| == |type2| by {
      assert tag[1 + |type1|] == ':' && tag[1 + |type2|] == ':';
    }
  }

  /** Distinct keys with plain type names give distinct tags. */
  lemma TagsDiffer(type1: TypeName, topic1: Option<string>, type2: TypeName, topic2: Option<string>)
    requires PlainTypeName(type1) && PlainTypeName(type2)
    requires type1 != type2 || TopicText(topic1) != TopicText(topic2)
    ensures BuildTag(type1, topic1) != BuildTag(type2, topic2)
  {
    if BuildTag(type1, topic1) == BuildTag(type2, topic2) {
      TagInjective(type1, topic1, type2, topic2);
    }
  }

  /** The delimiter is not escaped: a type name holding ':' collides with another key. */
  lemma TagsCollideWithoutPlainNames()
    ensures BuildTag("A", Some("b:c")) == BuildTag("A:b", Some("c"))
  {
  }
}
