/**
 * The conversation list: the search over names and last messages, the
 * avatar initials, the type colour dot, the unread badge and the counts
 * under the list.
 */
module ChatList {
  import opened Text
  import opened Seqs

  /** A conversation; `chatType` is kept as the raw string so the colour map's default branch stays reachable. */
  datatype Chat = Chat(id: string, name: string, lastMessage: string, timestamp: string,
                       unreadCount: int, isOnline: bool, chatType: string)

  /** The four conversation types the page knows. */
  const ChatTypes: set<string> := {"recruiter", "developer", "ai", "collaborator"}

  /** The lowercased query occurs in the lowercased name or last message. */
  predicate QueryMatches(c: Chat, query: string)
  {
    Includes(ToLower(c.name), ToLower(query)) || Includes(ToLower(c.lastMessage), ToLower(query))
  }

  function Matching(query: string): Chat -> bool
  {
    (c: Chat) => QueryMatches(c, query)
  }

  /**
   * `filteredChats`: every conversation when the query is blank after
   * trimming; otherwise the conversations the untrimmed query matches.
   */
  function FilterChats(chats: seq<Chat>, query: string): (r: seq<Chat>)
    ensures Blank(query) ==> r == chats
    ensures !Blank(query) ==> forall c :: c in r <==> c in chats && QueryMatches(c, query)
  {
    if Trim(query) == "" then chats else Filter(chats, Matching(query))
  }

  /** The list keeps the original order and adds nothing. */
  lemma FilteredChatsSubsequence(chats: seq<Chat>, query: string)
    ensures IsSubsequence(FilterChats(chats, query), chats)
  {
    if Blank(query) {
      SubsequenceRefl(chats);
    } else {
      FilterIsSubsequence(chats, Matching(query));
    }
  }

  /**
   * The query is matched untrimmed: a query that starts with a space only
   * finds conversations whose name or last message contains a space.
   */
  lemma LeadingSpaceTakesPart(chats: seq<Chat>, query: string)
    requires !Blank(query) && query[0] == ' '
    ensures forall c :: c in FilterChats(chats, query) ==> ' ' in c.name || ' ' in c.lastMessage
  {
    forall c | c in FilterChats(chats, query)
      ensures ' ' in c.name || ' ' in c.lastMessage
    {
      if Includes(ToLower(c.name), ToLower(query)) {
        LeadingCharFound(c.name, query);
      } else {
        LeadingCharFound(c.lastMessage, query);
      }
    }
  }

  /** If the lowercased `q` occurs in the lowercased `s` and `q` starts with a space, `s` has a space. */
  lemma LeadingCharFound(s: string, q: string)
    requires |q| > 0 && q[0] == ' ' && Includes(ToLower(s), ToLower(q))
    ensures ' ' in s
  {
    var i :| 0 <= i <= |ToLower(s)| - |ToLower(q)| && OccursAt(ToLower(s), ToLower(q), i);
    assert ToLower(s)[i] == ToLower(q)[0];
    assert s[i] == ' ';
  }

  /** `getInitials`: the uppercased first letters of the words, cut to two characters. */
  function Initials(name: string): (r: string)
    ensures |r| <= 2
  {
    Take(ToUpper(WordInitials(name)), 2)
  }

  /** For a name of single-spaced words, the initials are the uppercased first letters of the first two words. */
  lemma InitialsOfWords(words: seq<string>)
    requires |words| >= 1
    requires forall k :: 0 <= k < |words| ==> words[k] != "" && ' ' !in words[k]
    ensures |Initials(Join(words, ' '))| == if |words| < 2 then |words| else 2
    ensures forall k :: 0 <= k < |Initials(Join(words, ' '))| ==> Initials(Join(words, ' '))[k] == UpperChar(words[k][0])
  {
    WordInitialsOfWords(words);
  }

  /** `getTypeColor`: the colour of the type dot. */
  function TypeColor(chatType: string): (r: string)
    ensures r == "bg-gray-500" <==> chatType !in ChatTypes
  {
    match chatType
    case "recruiter" => "bg-blue-500"
    case "developer" => "bg-green-500"
    case "ai" => "bg-purple-500"
    case "collaborator" => "bg-orange-500"
    case _ => "bg-gray-500"
  }

  /** The four types get four different colours. */
  lemma TypeColorsDistinct(t1: string, t2: string)
    requires t1 in ChatTypes && t2 in ChatTypes && t1 != t2
    ensures TypeColor(t1) != TypeColor(t2)
  {
    assert TypeColor(t1)[3] != TypeColor(t2)[3];
  }

  /** The unread badge is drawn for a conversation with unread messages. */
  predicate ShowsUnreadBadge(c: Chat)
  {
    c.unreadCount > 0
  }

  /** The status dot is drawn for a conversation whose contact is online. */
  predicate ShowsOnlineDot(c: Chat)
  {
    c.isOnline
  }

  /** The "unread" count under the list: the listed conversations that carry a badge. */
  function UnreadCount(listed: seq<Chat>): nat
  {
    CountWhere(listed, ShowsUnreadBadge)
  }

  /** The "online" count under the list. */
  function OnlineCount(listed: seq<Chat>): nat
  {
    CountWhere(listed, ShowsOnlineDot)
  }

  /** Both counts are at most the number of listed conversations, and zero exactly when no listed conversation qualifies. */
  lemma CountsBounded(listed: seq<Chat>)
    ensures UnreadCount(listed) <= |listed| && OnlineCount(listed) <= |listed|
    ensures UnreadCount(listed) == 0 <==> forall k :: 0 <= k < |listed| ==> listed[k].unreadCount <= 0
    ensures OnlineCount(listed) == |listed| <==> forall k :: 0 <= k < |listed| ==> listed[k].isOnline
  {
  }
}
