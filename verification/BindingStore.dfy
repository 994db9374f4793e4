/** Binding files: where a chat's binding is written, and the glob that looks for it after a restart. */
module BindingStore {
  import opened Order
  import opened Text
  import opened Wrappers

  /** A conversation on a channel. */
  datatype Chat = Chat(channel: string, conversation: string)

  datatype Binding = Binding(
    chat: Chat,
    sessionId: string,
    eventTypes: seq<string>,
    offset: nat,
    lastEventId: Option<string>,
    restoreMarker: Option<string>)

  // ------------------------------------------------------------------ where a binding is written

  function Safe(text: string): string {
    if text == [] then [] else [if text[0] == '/' then '_' else text[0]] + Safe(text[1..])
  }

  /** The name of a chat's binding file; different chats may share one. */
  function FileName(chat: Chat): string {
    Safe(chat.channel + "__" + chat.conversation) + ".json"
  }

  /** A session's directory: the parts of its path below the root, unless the path is absolute. */
  datatype Place = Place(absolute: bool, parts: seq<string>)

  /** Empty parts and single dots name nothing in a path. */
  function Named(parts: seq<string>): seq<string> {
    if parts == [] then []
    else (if parts[0] == "" || parts[0] == "." then [] else [parts[0]]) + Named(parts[1..])
  }

  function PlaceOf(id: string): Place {
    Place(id != [] && id[0] == '/', Named(Split(id, '/')))
  }

  datatype FileKey = FileKey(place: Place, name: string)

  type Files = map<FileKey, Binding>

  function KeyFor(chat: Chat, id: string): FileKey {
    FileKey(PlaceOf(id), FileName(chat))
  }

  function KeyOf(b: Binding): FileKey {
    KeyFor(b.chat, b.sessionId)
  }

  // ------------------------------------------------------------------ the glob

  /** One level below the root, which is all that `*` as a directory stands for. */
  predicate Findable(p: Place) {
    !p.absolute && |p.parts| == 1 && p.parts[0] != ".."
  }

  /** Where the class opened at the head of a pattern ends: at its first `]`, not counting one that stands first;
      at the pattern's length when it is never closed. */
  function ClassEnd(pattern: string): (n: nat)
    requires pattern != []
    ensures 1 <= n <= |pattern|
  {
    var negated := if |pattern| > 1 && pattern[1] == '!' then 2 else 1;
    var start := if negated < |pattern| && pattern[negated] == ']' then negated + 1 else negated;
    start + IndexOf(pattern[start..], ']')
  }

  predicate InItems(items: string, c: char) {
    if items == [] then false
    else if |items| >= 3 && items[1] == '-' then items[0] <= c <= items[2] || InItems(items[3..], c)
    else items[0] == c || InItems(items[1..], c)
  }

  predicate InClass(body: string, c: char) {
    if body != [] && body[0] == '!' then !InItems(body[1..], c) else InItems(body, c)
  }

  /** Whether a file name matches a pattern: `*`, `?` and classes in brackets, all else literally. */
  predicate Match(pattern: string, name: string)
    decreases |pattern| + |name|
  {
    if pattern == [] then name == []
    else if pattern[0] == '*' then Match(pattern[1..], name) || (name != [] && Match(pattern, name[1..]))
    else if name == [] then false
    else if pattern[0] == '?' then Match(pattern[1..], name[1..])
    else if pattern[0] == '[' && ClassEnd(pattern) < |pattern| then
      InClass(pattern[1..ClassEnd(pattern)], name[0]) && Match(pattern[ClassEnd(pattern) + 1..], name[1..])
    else pattern[0] == name[0] && Match(pattern[1..], name[1..])
  }

  predicate NoMagic(text: string) {
    '*' !in text && '?' !in text && '[' !in text
  }

  predicate Finds(pattern: string, key: FileKey) {
    Findable(key.place) && Match(pattern, key.name)
  }

  /** The directory of a findable file. */
  function Dir(key: FileKey): string {
    if key.place.parts != [] then key.place.parts[0] else ""
  }

  /** The order of sorted paths: by directory, then by name. */
  predicate Before(a: FileKey, b: FileKey) {
    Less(Dir(a), Dir(b)) || (Dir(a) == Dir(b) && Less(a.name, b.name))
  }

  /** The file a lookup opens: the first of those it finds. */
  ghost predicate Opens(files: Files, pattern: string, key: FileKey) {
    && key in files && Finds(pattern, key)
    && forall k :: k in files && Finds(pattern, k) && k != key ==> Before(key, k)
  }

  function DirsFound(files: Files, pattern: string): set<string> {
    set k | k in files && Finds(pattern, k) :: Dir(k)
  }

  function NamesFound(files: Files, pattern: string, dir: string): set<string> {
    set k | k in files && Finds(pattern, k) && Dir(k) == dir :: k.name
  }

  /** The binding in the file a lookup opens. */
  ghost function Load(files: Files, pattern: string): Option<Binding> {
    if exists k :: Opens(files, pattern, k) then
      var k :| Opens(files, pattern, k);
      Some(files[k])
    else None
  }

  /** Every file holds a binding that belongs there. */
  ghost predicate InPlace(files: Files) {
    forall k :: k in files ==> k == KeyOf(files[k])
  }

  class FileSessionBindingStore {
    var files: Files

    constructor ()
      ensures files == map[]
    {
      files := map[];
    }

    method SaveBinding(b: Binding)
      modifies this
      ensures files == old(files)[KeyOf(b) := b]
    {
      files := files[KeyOf(b) := b];
    }

    /** The first of the sorted paths the glob finds. */
    method LoadBinding(chat: Chat) returns (b: Option<Binding>)
      ensures b == Load(files, FileName(chat))
    {
      hide Match, FileName, Findable;
      var pattern := FileName(chat);
      var dirs := SortSet(DirsFound(files, pattern));
      if dirs == [] {
        NothingFound(files, pattern);
        return None;
      }
      var names := SortSet(NamesFound(files, pattern, dirs[0]));
      FirstOpens(files, pattern, dirs, names);
      var key := FileKey(Place(false, [dirs[0]]), names[0]);
      LoadIs(files, pattern, key);
      return Some(files[key]);
    }
  }

  // ------------------------------------------------------------------ which file a lookup opens

  lemma {:induction false} NothingFound(files: Files, pattern: string)
    requires DirsFound(files, pattern) == {}
    ensures forall k :: k in files ==> !Finds(pattern, k)
    ensures Load(files, pattern) == None
  {
    hide Match, Findable;
    forall k | k in files
      ensures !Finds(pattern, k)
    {
      assert Finds(pattern, k) ==> Dir(k) in DirsFound(files, pattern);
    }
  }

  lemma {:induction false} FirstOfSorted(xs: seq<string>, x: string)
    requires Sorted(xs) && x in xs
    ensures x == xs[0] || Less(xs[0], x)
  {
    hide Less;
  }

  lemma {:induction false} FirstOpens(files: Files, pattern: string, dirs: seq<string>, names: seq<string>)
    requires Sorted(dirs) && Elements(dirs) == DirsFound(files, pattern) && dirs != []
    requires Sorted(names) && Elements(names) == NamesFound(files, pattern, dirs[0])
    ensures names != [] && Opens(files, pattern, FileKey(Place(false, [dirs[0]]), names[0]))
  {
    hide Match, Less, Sorted;
    assert dirs[0] in Elements(dirs);
    var some :| some in files && Finds(pattern, some) && Dir(some) == dirs[0];
    assert some.name in Elements(names);
    assert names[0] in Elements(names);
    var key :| key in files && Finds(pattern, key) && Dir(key) == dirs[0] && key.name == names[0];
    assert key == FileKey(Place(false, [dirs[0]]), names[0]);
    forall k | k in files && Finds(pattern, k) && k != key
      ensures Before(key, k)
    {
      assert Dir(k) in Elements(dirs);
      FirstOfSorted(dirs, Dir(k));
      if Dir(k) == dirs[0] {
        assert k.name in Elements(names);
        FirstOfSorted(names, k.name);
        assert k.place == key.place;
      }
    }
  }

  /** Two files that can be found are in order one way only. */
  lemma {:induction false} BeforeTotal(a: FileKey, b: FileKey)
    requires Findable(a.place) && Findable(b.place) && a != b
    ensures Before(a, b) <==> !Before(b, a)
  {
    hide Less;
    LessTotal(Dir(a), Dir(b));
    LessTotal(a.name, b.name);
    if Dir(a) == Dir(b) {
      assert a.place == b.place;
    }
  }

  lemma {:induction false} BeforeTransitive(a: FileKey, b: FileKey, c: FileKey)
    requires Before(a, b) && Before(b, c)
    ensures Before(a, c)
  {
    hide Less;
    if Less(Dir(a), Dir(b)) && Less(Dir(b), Dir(c)) {
      LessTransitive(Dir(a), Dir(b), Dir(c));
    }
    if Less(a.name, b.name) && Less(b.name, c.name) {
      LessTransitive(a.name, b.name, c.name);
    }
  }

  lemma {:induction false} LoadIs(files: Files, pattern: string, key: FileKey)
    requires Opens(files, pattern, key)
    ensures Load(files, pattern) == Some(files[key])
  {
    hide Match, Findable, Before;
    forall k | Opens(files, pattern, k)
      ensures k == key
    {
      if k != key {
        BeforeTotal(k, key);
      }
    }
  }

  /** A lookup fails exactly when no file is found. */
  lemma {:induction false} LoadFindsIff(files: Files, pattern: string)
    ensures Load(files, pattern).Some? <==> exists k :: k in files && Finds(pattern, k)
  {
    hide Match, Findable;
    var dirs := SortedOf(DirsFound(files, pattern));
    if dirs == [] {
      NothingFound(files, pattern);
    } else {
      FirstOpens(files, pattern, dirs, SortedOf(NamesFound(files, pattern, dirs[0])));
    }
  }

  /** A lookup returns a binding if and only if its file holds it, is found, and comes before every other file found. */
  lemma {:induction false} LoadReturnsIff(files: Files, pattern: string, b: Binding)
    requires InPlace(files)
    ensures Load(files, pattern) == Some(b) <==> Opens(files, pattern, KeyOf(b)) && files[KeyOf(b)] == b
  {
    hide Match, Findable, Before, KeyFor;
    if Opens(files, pattern, KeyOf(b)) {
      LoadIs(files, pattern, KeyOf(b));
    }
  }

  // ------------------------------------------------------------------ which names a name finds

  lemma {:induction false} MatchLiteral(text: string, name: string)
    requires NoMagic(text)
    ensures Match(text, name) <==> text == name
  {
    if text != [] && name != [] {
      assert text == [text[0]] + text[1..] && name == [name[0]] + name[1..];
      MatchLiteral(text[1..], name[1..]);
    }
  }

  lemma {:induction false} MatchAfter(text: string, a: string, b: string)
    requires NoMagic(text)
    ensures Match(text + a, text + b) == Match(a, b)
  {
    if text == [] {
      assert text + a == a && text + b == b;
    } else {
      assert (text + a)[1..] == text[1..] + a && (text + b)[1..] == text[1..] + b;
      MatchAfter(text[1..], a, b);
    }
  }

  /** Only a bracket can keep a name from finding itself. */
  lemma {:induction false} NameFindsItself(text: string)
    requires '[' !in text
    ensures Match(text, text)
  {
    if text != [] {
      NameFindsItself(text[1..]);
      if text[0] == '*' {
        assert Match(text, text[1..]);
      }
    }
  }

  /** A star finds every name with what follows it. */
  lemma {:induction false} StarFinds(rest: string, before: string)
    requires NoMagic(rest)
    ensures Match("*" + rest, before + rest)
  {
    var pattern := "*" + rest;
    assert pattern[1..] == rest;
    if before == [] {
      assert before + rest == rest;
      MatchLiteral(rest, rest);
    } else {
      assert (before + rest)[1..] == before[1..] + rest;
      StarFinds(rest, before[1..]);
    }
  }

  lemma {:induction false} SafeConcat(a: string, b: string)
    ensures Safe(a + b) == Safe(a) + Safe(b)
  {
    if a == [] {
      assert a + b == b;
    } else {
      assert (a + b)[1..] == a[1..] + b;
      SafeConcat(a[1..], b);
    }
  }

  lemma {:induction false} SafeKeeps(a: string)
    requires '/' !in a
    ensures Safe(a) == a
  {
    if a != [] {
      assert a == [a[0]] + a[1..];
      SafeKeeps(a[1..]);
    }
  }

  lemma {:induction false} NameParts(chat: Chat)
    ensures FileName(chat) == Safe(chat.channel) + "__" + Safe(chat.conversation) + ".json"
  {
    SafeConcat(chat.channel + "__", chat.conversation);
    SafeConcat(chat.channel, "__");
    SafeKeeps("__");
  }

  /** A question mark stands for one character, and a star for any number of them. */
  lemma {:induction false} WildcardsMatch(rest: string, name: string)
    ensures Match("?" + rest, name) <==> name != "" && Match(rest, name[1..])
    ensures Match("*" + rest, name) <==> exists k :: 0 <= k <= |name| && Match(rest, name[k..])
  {
    assert ("?" + rest)[1..] == rest && ("*" + rest)[1..] == rest;
    StarAnywhere(rest, name);
  }

  lemma {:induction false} StarAnywhere(rest: string, name: string)
    ensures Match("*" + rest, name) <==> exists k :: 0 <= k <= |name| && Match(rest, name[k..])
  {
    assert ("*" + rest)[1..] == rest && name[0..] == name;
    if name == "" {
      assert Match("*" + rest, name) <==> Match(rest, name);
    } else {
      StarAnywhere(rest, name[1..]);
      if k :| 0 <= k <= |name[1..]| && Match(rest, name[1..][k..]) {
        assert name[1..][k..] == name[k + 1..];
      }
      if k :| 0 < k <= |name| && Match(rest, name[k..]) {
        assert name[1..][k - 1..] == name[k..];
      }
    }
  }

  /** The pattern of a class with these members. */
  function Class(negated: bool, members: string): string {
    "[" + (if negated then "!" else "") + members + "]"
  }

  lemma {:induction false} ClassEndsAt(negated: bool, members: string, rest: string)
    requires members != "" && ']' !in members[1..] && (!negated ==> members[0] != '!')
    ensures var pattern := Class(negated, members) + rest;
            && ClassEnd(pattern) == |Class(negated, members)| - 1
            && pattern[1..ClassEnd(pattern)] == (if negated then "!" else "") + members
            && pattern[ClassEnd(pattern) + 1..] == rest
  {
    var pattern := Class(negated, members) + rest;
    var head := if negated then "[!" else "[";
    assert pattern == head + members + "]" + rest;
    ClassTail(head, members, rest);
    if members[0] == ']' {
      IndexOfAt(members[1..], ']', rest);
    } else {
      assert members == [members[0]] + members[1..];
      IndexOfAt(members, ']', rest);
    }
    hide IndexOf;
    assert ClassEnd(pattern) == |head| + |members|;
  }

  lemma {:induction false} ClassTail(head: string, members: string, rest: string)
    requires head != "" && members != ""
    ensures var pattern := head + members + "]" + rest;
            && pattern[|head|] == members[0]
            && pattern[|head|..] == members + ([']'] + rest)
            && pattern[|head| + 1..] == members[1..] + ([']'] + rest)
            && pattern[1..|head| + |members|] == head[1..] + members
            && pattern[|head| + |members| + 1..] == rest
  {}

  /** A class stands for one character: one of its members, or one that is none of them if it is negated. It is closed
      by its first `]`, not counting one that stands first. */
  lemma {:induction false} ClassMatches(negated: bool, members: string, rest: string, name: string)
    requires members != "" && ']' !in members[1..] && (!negated ==> members[0] != '!')
    ensures Match(Class(negated, members) + rest, name) <==>
            name != "" && (negated <==> !InItems(members, name[0])) && Match(rest, name[1..])
  {
    var pattern := Class(negated, members) + rest;
    ClassEndsAt(negated, members, rest);
    assert pattern[0] == '[' && ClassEnd(pattern) < |pattern|;
    hide ClassEnd, InItems;
    if negated {
      assert ("!" + members)[1..] == members;
    } else {
      assert "" + members == members;
    }
  }

  /** A bracket that is never closed stands for itself. */
  lemma {:induction false} OpenBracket(rest: string, name: string)
    requires ']' !in rest
    ensures Match("[" + rest, name) <==> name != "" && name[0] == '[' && Match(rest, name[1..])
  {
    var pattern := "[" + rest;
    assert pattern[1..] == rest;
    assert ']' !in pattern;
    var end := ClassEnd(pattern);
    if end < |pattern| {
      assert pattern[end] in pattern;
      ClassEndIsBracket(pattern);
    }
  }

  lemma {:induction false} ClassEndIsBracket(pattern: string)
    requires pattern != "" && ClassEnd(pattern) < |pattern|
    ensures pattern[ClassEnd(pattern)] == ']'
  {}

  /** Members without a hyphen are themselves. */
  lemma {:induction false} ListedMembers(members: string, c: char)
    requires '-' !in members
    ensures InItems(members, c) <==> c in members
  {
    if members != "" {
      assert members == [members[0]] + members[1..];
      assert |members| >= 2 ==> members[1] in members;
      ListedMembers(members[1..], c);
    }
  }

  /** A hyphen between two members makes them a range, and one at the end is a member. */
  lemma {:induction false} RangeMembers(lo: char, hi: char, rest: string, c: char)
    ensures InItems([lo] + "-" + [hi] + rest, c) <==> lo <= c <= hi || InItems(rest, c)
    ensures InItems([lo] + "-", c) <==> c == lo || c == '-'
  {
    assert ([lo] + "-" + [hi] + rest)[3..] == rest;
    assert ([lo] + "-")[1..] == "-" && "-"[1..] == "";
    assert InItems("-", c) <==> c == '-' || InItems("", c);
    assert InItems([lo] + "-", c) <==> c == lo || InItems("-", c);
  }

  lemma {:induction false} ClassMissesBracket(rest: string)
    ensures !Match("[1]" + rest, "[1]" + rest)
  {
    var text := "[1]" + rest;
    assert text[1] == '1' && text[2..][0] == ']';
    assert text[1..][1..] == text[2..];
    assert ClassEnd(text) == 2;
    assert text[1..2] == "1" && "1"[1..] == "";
  }

  /** The file of a conversation named `c[1]` is not found under its own name. */
  lemma {:induction false} BracketMissesItself(channel: string)
    requires NoMagic(Safe(channel))
    ensures var name := FileName(Chat(channel, "c[1]")); !Match(name, name)
  {
    var head, tail := Safe(channel) + "__c", "[1]" + ".json";
    NameParts(Chat(channel, "c[1]"));
    SafeKeeps("c[1]");
    hide FileName, Safe, Match;
    assert FileName(Chat(channel, "c[1]")) == head + tail;
    MatchAfter(head, tail, tail);
    ClassMissesBracket(".json");
  }

  /** A conversation named `*` finds the file of every conversation of its channel. */
  lemma {:induction false} StarFindsChannel(channel: string, conversation: string)
    requires NoMagic(Safe(channel))
    ensures Match(FileName(Chat(channel, "*")), FileName(Chat(channel, conversation)))
  {
    var head := Safe(channel) + "__";
    NameParts(Chat(channel, "*"));
    NameParts(Chat(channel, conversation));
    SafeKeeps("*");
    assert FileName(Chat(channel, "*")) == head + ("*" + ".json");
    assert FileName(Chat(channel, conversation)) == head + (Safe(conversation) + ".json");
    MatchAfter(head, "*" + ".json", Safe(conversation) + ".json");
    StarFinds(".json", Safe(conversation));
  }

  /** Two conversations with one file name. */
  lemma {:induction false} TwinsExist(channel: string)
    ensures FileName(Chat(channel, "a/b")) == FileName(Chat(channel, "a_b"))
  {
    NameParts(Chat(channel, "a/b"));
    NameParts(Chat(channel, "a_b"));
    assert "a/b"[1..] == "/b" && "/b"[1..] == "b" && "a_b"[1..] == "_b" && "_b"[1..] == "b";
  }

  // ------------------------------------------------------------------ which sessions are found

  /** An id without a slash is its own directory, but for the names of a directory itself and its parent. */
  lemma {:induction false} PlainPlace(id: string)
    requires '/' !in id
    ensures Findable(PlaceOf(id)) <==> id != "" && id != "." && id != ".."
    ensures Findable(PlaceOf(id)) ==> PlaceOf(id) == Place(false, [id])
  {
    SplitWhole(id, '/');
    assert [id][1..] == [] && Named([]) == [];
    assert id != [] ==> id[0] in id;
  }

  /** An id with a slash is found only if nothing but empty parts and dots follows its first part. */
  lemma {:induction false} SlashPlace(first: string, rest: string)
    requires '/' !in first && first != "" && first != "." && first != ".."
    ensures PlaceOf(first + "/" + rest) == Place(false, [first] + Named(Split(rest, '/')))
    ensures Findable(PlaceOf(first + "/" + rest)) <==> Named(Split(rest, '/')) == []
  {
    SplitAt(first, '/', rest);
    assert ([first] + Split(rest, '/'))[1..] == Split(rest, '/');
    assert (first + "/" + rest)[0] == first[0];
  }
}
