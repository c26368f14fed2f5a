/**
 * ChannelMessage: a Chime SDK Messaging message, whose fields each carry a "has
 * been set" flag raised by the field's setter. Its message attributes form a map
 * to which AddMessageAttributes adds an entry only when the key is new.
 */
module ChimeSdkMessaging {
  import opened AwsCore

  /** ChannelMessageType is an enum; carried as its integer value. */
  datatype ChannelMessageType = ChannelMessageType(value: int32)

  /** ChannelMessagePersistenceType is an enum; carried as its integer value. */
  datatype ChannelMessagePersistenceType = ChannelMessagePersistenceType(value: int32)

  /** Identity, a nested model type whose members are not part of this model. */
  datatype Identity = Identity(id: int)

  /** ChannelMessageStatusStructure, a nested model type whose members are not part of this model. */
  datatype ChannelMessageStatusStructure = ChannelMessageStatusStructure(id: int)

  /** MessageAttributeValue, a nested model type whose members are not part of this model. */
  datatype MessageAttributeValue = MessageAttributeValue(id: int)

  class ChannelMessage {
    var channelArn: string
    var channelArnHasBeenSet: bool
    var messageId: string
    var messageIdHasBeenSet: bool
    var content: string
    var contentHasBeenSet: bool
    var metadata: string
    var metadataHasBeenSet: bool
    var messageType: ChannelMessageType
    var messageTypeHasBeenSet: bool
    var createdTimestamp: DateTime
    var createdTimestampHasBeenSet: bool
    var lastEditedTimestamp: DateTime
    var lastEditedTimestampHasBeenSet: bool
    var lastUpdatedTimestamp: DateTime
    var lastUpdatedTimestampHasBeenSet: bool
    var sender: Identity
    var senderHasBeenSet: bool
    var redacted: bool
    var redactedHasBeenSet: bool
    var persistence: ChannelMessagePersistenceType
    var persistenceHasBeenSet: bool
    var status: ChannelMessageStatusStructure
    var statusHasBeenSet: bool
    var messageAttributes: map<string, MessageAttributeValue>
    var messageAttributesHasBeenSet: bool
    var subChannelId: string
    var subChannelIdHasBeenSet: bool
    var contentType: string
    var contentTypeHasBeenSet: bool

    /** No field has been set. */
    predicate NothingSet()
      reads this
    {
      !channelArnHasBeenSet
      && !messageIdHasBeenSet
      && !contentHasBeenSet
      && !metadataHasBeenSet
      && !messageTypeHasBeenSet
      && !createdTimestampHasBeenSet
      && !lastEditedTimestampHasBeenSet
      && !lastUpdatedTimestampHasBeenSet
      && !senderHasBeenSet
      && !redactedHasBeenSet
      && !persistenceHasBeenSet
      && !statusHasBeenSet
      && !messageAttributesHasBeenSet
      && !subChannelIdHasBeenSet
      && !contentTypeHasBeenSet
    }

    /**
     * The default constructor: every flag starts false; strings and containers
     * start empty. Numbers and booleans get no initializer in the class body,
     * so nothing is promised about their values.
     */
    constructor ()
      ensures NothingSet()
      ensures channelArn == "" && messageId == "" && content == "" && metadata == "" && messageAttributes == map[] && subChannelId == "" && contentType == ""
    {
      channelArn := "";
      channelArnHasBeenSet := false;
      messageId := "";
      messageIdHasBeenSet := false;
      content := "";
      contentHasBeenSet := false;
      metadata := "";
      metadataHasBeenSet := false;
      messageType := ChannelMessageType(0);
      messageTypeHasBeenSet := false;
      createdTimestamp := DateTime(0);
      createdTimestampHasBeenSet := false;
      lastEditedTimestamp := DateTime(0);
      lastEditedTimestampHasBeenSet := false;
      lastUpdatedTimestamp := DateTime(0);
      lastUpdatedTimestampHasBeenSet := false;
      sender := Identity(0);
      senderHasBeenSet := false;
      redactedHasBeenSet := false;
      persistence := ChannelMessagePersistenceType(0);
      persistenceHasBeenSet := false;
      status := ChannelMessageStatusStructure(0);
      statusHasBeenSet := false;
      messageAttributes := map[];
      messageAttributesHasBeenSet := false;
      subChannelId := "";
      subChannelIdHasBeenSet := false;
      contentType := "";
      contentTypeHasBeenSet := false;
    }

    /** SetChannelArn: stores the value, marks the field set and changes nothing else. */
    method SetChannelArn(value: string)
      modifies this`channelArn, this`channelArnHasBeenSet
      ensures channelArn == value && channelArnHasBeenSet
    {
      channelArnHasBeenSet := true;
      channelArn := value;
    }

    /** WithChannelArn: SetChannelArn, returning this same object so that calls chain. */
    method WithChannelArn(value: string) returns (self: ChannelMessage)
      modifies this`channelArn, this`channelArnHasBeenSet
      ensures self == this
      ensures channelArn == value && channelArnHasBeenSet
    {
      SetChannelArn(value);
      return this;
    }

    /** SetMessageId: stores the value, marks the field set and changes nothing else. */
    method SetMessageId(value: string)
      modifies this`messageId, this`messageIdHasBeenSet
      ensures messageId == value && messageIdHasBeenSet
    {
      messageIdHasBeenSet := true;
      messageId := value;
    }

    /** WithMessageId: SetMessageId, returning this same object so that calls chain. */
    method WithMessageId(value: string) returns (self: ChannelMessage)
      modifies this`messageId, this`messageIdHasBeenSet
      ensures self == this
      ensures messageId == value && messageIdHasBeenSet
    {
      SetMessageId(value);
      return this;
    }

    /** SetContent: stores the value, marks the field set and changes nothing else. */
    method SetContent(value: string)
      modifies this`content, this`contentHasBeenSet
      ensures content == value && contentHasBeenSet
    {
      contentHasBeenSet := true;
      content := value;
    }

    /** WithContent: SetContent, returning this same object so that calls chain. */
    method WithContent(value: string) returns (self: ChannelMessage)
      modifies this`content, this`contentHasBeenSet
      ensures self == this
      ensures content == value && contentHasBeenSet
    {
      SetContent(value);
      return this;
    }

    /** SetMetadata: stores the value, marks the field set and changes nothing else. */
    method SetMetadata(value: string)
      modifies this`metadata, this`metadataHasBeenSet
      ensures metadata == value && metadataHasBeenSet
    {
      metadataHasBeenSet := true;
      metadata := value;
    }

    /** WithMetadata: SetMetadata, returning this same object so that calls chain. */
    method WithMetadata(value: string) returns (self: ChannelMessage)
      modifies this`metadata, this`metadataHasBeenSet
      ensures self == this
      ensures metadata == value && metadataHasBeenSet
    {
      SetMetadata(value);
      return this;
    }

    /** SetType: stores the value, marks the field set and changes nothing else. */
    method SetType(value: ChannelMessageType)
      modifies this`messageType, this`messageTypeHasBeenSet
      ensures messageType == value && messageTypeHasBeenSet
    {
      messageTypeHasBeenSet := true;
      messageType := value;
    }

    /** WithType: SetType, returning this same object so that calls chain. */
    method WithType(value: ChannelMessageType) returns (self: ChannelMessage)
      modifies this`messageType, this`messageTypeHasBeenSet
      ensures self == this
      ensures messageType == value && messageTypeHasBeenSet
    {
      SetType(value);
      return this;
    }

    /** SetCreatedTimestamp: stores the value, marks the field set and changes nothing else. */
    method SetCreatedTimestamp(value: DateTime)
      modifies this`createdTimestamp, this`createdTimestampHasBeenSet
      ensures createdTimestamp == value && createdTimestampHasBeenSet
    {
      createdTimestampHasBeenSet := true;
      createdTimestamp := value;
    }

    /** WithCreatedTimestamp: SetCreatedTimestamp, returning this same object so that calls chain. */
    method WithCreatedTimestamp(value: DateTime) returns (self: ChannelMessage)
      modifies this`createdTimestamp, this`createdTimestampHasBeenSet
      ensures self == this
      ensures createdTimestamp == value && createdTimestampHasBeenSet
    {
      SetCreatedTimestamp(value);
      return this;
    }

    /** SetLastEditedTimestamp: stores the value, marks the field set and changes nothing else. */
    method SetLastEditedTimestamp(value: DateTime)
      modifies this`lastEditedTimestamp, this`lastEditedTimestampHasBeenSet
      ensures lastEditedTimestamp == value && lastEditedTimestampHasBeenSet
    {
      lastEditedTimestampHasBeenSet := true;
      lastEditedTimestamp := value;
    }

    /** WithLastEditedTimestamp: SetLastEditedTimestamp, returning this same object so that calls chain. */
    method WithLastEditedTimestamp(value: DateTime) returns (self: ChannelMessage)
      modifies this`lastEditedTimestamp, this`lastEditedTimestampHasBeenSet
      ensures self == this
      ensures lastEditedTimestamp == value && lastEditedTimestampHasBeenSet
    {
      SetLastEditedTimestamp(value);
      return this;
    }

    /** SetLastUpdatedTimestamp: stores the value, marks the field set and changes nothing else. */
    method SetLastUpdatedTimestamp(value: DateTime)
      modifies this`lastUpdatedTimestamp, this`lastUpdatedTimestampHasBeenSet
      ensures lastUpdatedTimestamp == value && lastUpdatedTimestampHasBeenSet
    {
      lastUpdatedTimestampHasBeenSet := true;
      lastUpdatedTimestamp := value;
    }

    /** WithLastUpdatedTimestamp: SetLastUpdatedTimestamp, returning this same object so that calls chain. */
    method WithLastUpdatedTimestamp(value: DateTime) returns (self: ChannelMessage)
      modifies this`lastUpdatedTimestamp, this`lastUpdatedTimestampHasBeenSet
      ensures self == this
      ensures lastUpdatedTimestamp == value && lastUpdatedTimestampHasBeenSet
    {
      SetLastUpdatedTimestamp(value);
      return this;
    }

    /** SetSender: stores the value, marks the field set and changes nothing else. */
    method SetSender(value: Identity)
      modifies this`sender, this`senderHasBeenSet
      ensures sender == value && senderHasBeenSet
    {
      senderHasBeenSet := true;
      sender := value;
    }

    /** WithSender: SetSender, returning this same object so that calls chain. */
    method WithSender(value: Identity) returns (self: ChannelMessage)
      modifies this`sender, this`senderHasBeenSet
      ensures self == this
      ensures sender == value && senderHasBeenSet
    {
      SetSender(value);
      return this;
    }

    /** SetRedacted: stores the value, marks the field set and changes nothing else. */
    method SetRedacted(value: bool)
      modifies this`redacted, this`redactedHasBeenSet
      ensures redacted == value && redactedHasBeenSet
    {
      redactedHasBeenSet := true;
      redacted := value;
    }

    /** WithRedacted: SetRedacted, returning this same object so that calls chain. */
    method WithRedacted(value: bool) returns (self: ChannelMessage)
      modifies this`redacted, this`redactedHasBeenSet
      ensures self == this
      ensures redacted == value && redactedHasBeenSet
    {
      SetRedacted(value);
      return this;
    }

    /** SetPersistence: stores the value, marks the field set and changes nothing else. */
    method SetPersistence(value: ChannelMessagePersistenceType)
      modifies this`persistence, this`persistenceHasBeenSet
      ensures persistence == value && persistenceHasBeenSet
    {
      persistenceHasBeenSet := true;
      persistence := value;
    }

    /** WithPersistence: SetPersistence, returning this same object so that calls chain. */
    method WithPersistence(value: ChannelMessagePersistenceType) returns (self: ChannelMessage)
      modifies this`persistence, this`persistenceHasBeenSet
      ensures self == this
      ensures persistence == value && persistenceHasBeenSet
    {
      SetPersistence(value);
      return this;
    }

    /** SetStatus: stores the value, marks the field set and changes nothing else. */
    method SetStatus(value: ChannelMessageStatusStructure)
      modifies this`status, this`statusHasBeenSet
      ensures status == value && statusHasBeenSet
    {
      statusHasBeenSet := true;
      status := value;
    }

    /** WithStatus: SetStatus, returning this same object so that calls chain. */
    method WithStatus(value: ChannelMessageStatusStructure) returns (self: ChannelMessage)
      modifies this`status, this`statusHasBeenSet
      ensures self == this
      ensures status == value && statusHasBeenSet
    {
      SetStatus(value);
      return this;
    }

    /** SetMessageAttributes: stores the value, marks the field set and changes nothing else. */
    method SetMessageAttributes(value: map<string, MessageAttributeValue>)
      modifies this`messageAttributes, this`messageAttributesHasBeenSet
      ensures messageAttributes == value && messageAttributesHasBeenSet
    {
      messageAttributesHasBeenSet := true;
      messageAttributes := value;
    }

    /** WithMessageAttributes: SetMessageAttributes, returning this same object so that calls chain. */
    method WithMessageAttributes(value: map<string, MessageAttributeValue>) returns (self: ChannelMessage)
      modifies this`messageAttributes, this`messageAttributesHasBeenSet
      ensures self == this
      ensures messageAttributes == value && messageAttributesHasBeenSet
    {
      SetMessageAttributes(value);
      return this;
    }

    /** SetSubChannelId: stores the value, marks the field set and changes nothing else. */
    method SetSubChannelId(value: string)
      modifies this`subChannelId, this`subChannelIdHasBeenSet
      ensures subChannelId == value && subChannelIdHasBeenSet
    {
      subChannelIdHasBeenSet := true;
      subChannelId := value;
    }

    /** WithSubChannelId: SetSubChannelId, returning this same object so that calls chain. */
    method WithSubChannelId(value: string) returns (self: ChannelMessage)
      modifies this`subChannelId, this`subChannelIdHasBeenSet
      ensures self == this
      ensures subChannelId == value && subChannelIdHasBeenSet
    {
      SetSubChannelId(value);
      return this;
    }

    /** SetContentType: stores the value, marks the field set and changes nothing else. */
    method SetContentType(value: string)
      modifies this`contentType, this`contentTypeHasBeenSet
      ensures contentType == value && contentTypeHasBeenSet
    {
      contentTypeHasBeenSet := true;
      contentType := value;
    }

    /** WithContentType: SetContentType, returning this same object so that calls chain. */
    method WithContentType(value: string) returns (self: ChannelMessage)
      modifies this`contentType, this`contentTypeHasBeenSet
      ensures self == this
      ensures contentType == value && contentTypeHasBeenSet
    {
      SetContentType(value);
      return this;
    }

    /**
     * AddMessageAttributes: an emplace into the attribute map, which inserts only
     * when the key is absent and otherwise keeps the value already there; the
     * flag is raised either way.
     */
    method AddMessageAttributes(key: string, value: MessageAttributeValue) returns (self: ChannelMessage)
      modifies this`messageAttributes, this`messageAttributesHasBeenSet
      ensures self == this
      ensures messageAttributesHasBeenSet
      ensures key in messageAttributes
      ensures key in old(messageAttributes) ==> messageAttributes == old(messageAttributes)
      ensures key !in old(messageAttributes) ==> messageAttributes == old(messageAttributes)[key := value]
    {
      messageAttributesHasBeenSet := true;
      if key !in messageAttributes {
        messageAttributes := messageAttributes[key := value];
      }
      return this;
    }
  }

  /**
   * Adding the same key twice keeps the first value; SetMessageAttributes
   * afterwards replaces the whole map.
   */
  method FirstAttributeWins(message: ChannelMessage, key: string, first: MessageAttributeValue,
                            second: MessageAttributeValue, replacement: map<string, MessageAttributeValue>)
    returns (afterAdds: map<string, MessageAttributeValue>)
    requires key !in message.messageAttributes
    modifies message
    ensures afterAdds == old(message.messageAttributes)[key := first]
    ensures message.messageAttributes == replacement && message.messageAttributesHasBeenSet
  {
    var m1 := message.AddMessageAttributes(key, first);
    var m2 := m1.AddMessageAttributes(key, second);
    afterAdds := message.messageAttributes;
    message.SetMessageAttributes(replacement);
  }
}
