/** `MessageContext`: the mutable record the handlers pass down the chain, with
    its lazily created attribute map, rendered-message map and task list. */
module Context {
  import opened JavaLang
  import opened Enums
  import opened Entities

  datatype ProcessStatus = Init | Processing | Success | Failed

  /** An attribute value (`Object`): nothing in the core looks inside one. */
  type AttributeValue(==)

  /** The value of every field of a context at one moment. */
  datatype ContextState = ContextState(
    messageId: Option<string>,
    tenantId: Option<int>,
    storeId: Option<int>,
    businessType: Option<string>,
    businessData: Option<string>,
    targetChannels: Option<seq<ChannelType>>,
    channelConfigs: Option<seq<ChannelConfig>>,
    renderedMessages: Option<map<ChannelType, Option<string>>>,
    channelTasks: Option<seq<ChannelTask>>,
    status: Option<ProcessStatus>,
    errorMessage: Option<string>,
    attributes: Option<map<string, Option<AttributeValue>>>)

  /** `new MessageContext()`. */
  function BlankState(): ContextState
  {
    ContextState(None, None, None, None, None, None, None, None, None, None, None, None)
  }

  /** `map.put(key, value)` on a map that is created first when it is null. */
  function Put<K, V>(m: Option<map<K, V>>, key: K, value: V): (r: Option<map<K, V>>)
    ensures r.Some? && key in r.value && r.value[key] == value
    ensures m.None? ==> r.value.Keys == {key}
    ensures m.Some? ==> r.value.Keys == m.value.Keys + {key}
    ensures m.Some? ==> forall k :: k in m.value && k != key ==> r.value[k] == m.value[k]
  {
    match m
    case None => Some(map[key := value])
    case Some(mm) => Some(mm[key := value])
  }

  /** `map.get(key)` guarded by a null check on the map: null for a missing map or key. */
  function Get<K, V>(m: Option<map<K, Option<V>>>, key: K): (v: Option<V>)
    ensures m.None? ==> v.None?
    ensures m.Some? && key !in m.value ==> v.None?
    ensures m.Some? && key in m.value ==> v == m.value[key]
  {
    if m.Some? && key in m.value then m.value[key] else None
  }

  /** `list.add(x)` on a list that is created first when it is null. */
  function Append<T>(s: Option<seq<T>>, x: T): (r: Option<seq<T>>)
    ensures r.Some? && |r.value| == (if s.Some? then |s.value| else 0) + 1
    ensures r.value[|r.value| - 1] == x
    ensures s.Some? ==> r.value[..|s.value|] == s.value
  {
    match s
    case None => Some([x])
    case Some(xs) => Some(xs + [x])
  }

  /** The value last put under a key is what a later get returns, and a put
      leaves every other key's value alone. */
  lemma GetAfterPut<V>(m: Option<map<string, Option<V>>>, key: string, k: string, v: Option<V>)
    ensures Get(Put(m, key, v), key) == v
    ensures k != key ==> Get(Put(m, key, v), k) == Get(m, k)
  {
  }

  class MessageContext {
    var messageId: Option<string>
    var tenantId: Option<int>
    var storeId: Option<int>
    var businessType: Option<string>
    var businessData: Option<string>
    var targetChannels: Option<seq<ChannelType>>
    var channelConfigs: Option<seq<ChannelConfig>>
    var renderedMessages: Option<map<ChannelType, Option<string>>>
    var channelTasks: Option<seq<ChannelTask>>
    var status: Option<ProcessStatus>
    var errorMessage: Option<string>
    var attributes: Option<map<string, Option<AttributeValue>>>

    function State(): ContextState
      reads this
    {
      ContextState(messageId, tenantId, storeId, businessType, businessData, targetChannels,
                   channelConfigs, renderedMessages, channelTasks, status, errorMessage, attributes)
    }

    /** The no-argument constructor: every field null. */
    constructor ()
      ensures State() == BlankState()
    {
      messageId, tenantId, storeId := None, None, None;
      businessType, businessData := None, None;
      targetChannels, channelConfigs, renderedMessages, channelTasks := None, None, None, None;
      status, errorMessage, attributes := None, None, None;
    }

    /** Creates the attribute map if needed, then maps `key` to `value`. */
    method AddAttribute(key: string, value: Option<AttributeValue>)
      modifies this
      ensures State() == old(State()).(attributes := Put(old(attributes), key, value))
    {
      if attributes.None? {
        attributes := Some(map[]);
      }
      attributes := Some(attributes.value[key := value]);
    }

    /** Null when there is no attribute map; otherwise the value under `key`. */
    method GetAttribute(key: string) returns (value: Option<AttributeValue>)
      ensures value == Get(attributes, key)
    {
      if attributes.None? {
        return None;
      }
      value := if key in attributes.value then attributes.value[key] else None;
    }

    /** Creates the rendered-message map if needed, then sets one channel's text. */
    method AddRenderedMessage(channelType: ChannelType, content: Option<string>)
      modifies this
      ensures State() == old(State()).(renderedMessages := Put(old(renderedMessages), channelType, content))
    {
      if renderedMessages.None? {
        renderedMessages := Some(map[]);
      }
      renderedMessages := Some(renderedMessages.value[channelType := content]);
    }

    /** Creates the task list if needed, then appends `task`. */
    method AddChannelTask(task: ChannelTask)
      modifies this
      ensures State() == old(State()).(channelTasks := Append(old(channelTasks), task))
    {
      if channelTasks.None? {
        channelTasks := Some([]);
      }
      channelTasks := Some(channelTasks.value + [task]);
    }
  }
}
