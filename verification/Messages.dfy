/** What travels on the bus, and who wants to hear it. */
module Messages {
  import opened Wrappers

  type NodeId = string
  type Uuid = nat

  /** `cid` is the correlation id the payload carries, if it parses. */
  datatype Message = Message(msgType: string, from: NodeId, to: seq<NodeId>, cid: Option<Uuid>, payload: Json)

  datatype NodeInfo = NodeInfo(nodeId: NodeId, nodeType: string, capabilities: Json)

  datatype ToMatch = Everything | BroadcastOnly | DirectedToMe | BroadcastAndDirectedToMe

  datatype MessageFilter = MessageFilter(types: Option<seq<string>>, toMatch: ToMatch)
  {
    predicate Matches(msg: Message, me: NodeId) {
      && (types.Some? ==> msg.msgType in types.value)
      && match toMatch
         case Everything => true
         case BroadcastOnly => msg.to == []
         case DirectedToMe => me in msg.to
         case BroadcastAndDirectedToMe => msg.to == [] || me in msg.to
    }
  }

  /** A message of a type asked for, or of any if none was, and addressed as the filter asks. */
  ghost predicate Wants(filter: MessageFilter, msg: Message, me: NodeId) {
    && (filter.types == None || exists types :: filter.types == Some(types) && msg.msgType in types)
    && match filter.toMatch
       case Everything => true
       case BroadcastOnly => |msg.to| == 0
       case DirectedToMe => exists i :: 0 <= i < |msg.to| && msg.to[i] == me
       case BroadcastAndDirectedToMe => |msg.to| == 0 || exists i :: 0 <= i < |msg.to| && msg.to[i] == me
  }

  lemma MatchesIff(filter: MessageFilter, msg: Message, me: NodeId)
    ensures filter.Matches(msg, me) <==> Wants(filter, msg, me)
  {
  }

  const NODE_ONLINE := "node_online"
  const NODE_OFFLINE := "node_offline"
  const HEARTBEAT_REQUEST := "heartbeat_request"
  const BARRIER_REQUEST := "barrier_request"
  const BARRIER_ACK := "barrier_ack"
  const MODEL_CALL := "model_call"
  const MODEL_RESPONSE := "model_response"
  const TOOL_EXEC := "tool_exec"
  const TOOL_RESULT := "tool_result"
  const PERMISSION_REQUEST := "permission_request"
  const PERMISSION_RESPONSE := "permission_response"
  const PEER_MESSAGE := "peer_message"
  const PEER_REPLY := "peer_reply"
  const HUMAN_HANDOFF := "human_handoff"
  const HUMAN_HANDOFF_REPLY := "human_handoff_reply"
}
