/** How a command gets from a format string to what the server makes of it. */
module RedisCommands {
  import opened Text

  /** Who the gateway logs in as. */
  datatype Login = Login(user: string, password: string)

  /** What the server understands. */
  datatype Command =
    | Auth(login: Login)
    | Xrange(count: nat)
    | Xdel(text: string)
    | Xadd(data: string)
    | Unknown

  predicate Hole(word: string) { word == "%s" || word == "%u" || word == "%b" }

  /** `redisCommand` cuts the format at its spaces and puts the arguments, whatever is in them,
      where the place holders are. */
  function Argv(words: seq<string>, args: seq<string>): seq<string> {
    if words == [] then []
    else if Hole(words[0]) && args != [] then [args[0]] + Argv(words[1..], args[1..])
    else [words[0]] + Argv(words[1..], args)
  }

  /** The server's reading of the words it is sent. An XDEL keeps its text, of which more is
      said in `RedisWire`. */
  function Understood(argv: seq<string>, text: string): Command {
    if |argv| == 3 && argv[0] == "AUTH" then Auth(Login(argv[1], argv[2]))
    else if |argv| == 6 && argv[..5] == ["XRANGE", "messages", "-", "+", "COUNT"] && AllDigits(argv[5])
    then Xrange(Value(argv[5]))
    else if |argv| == 5 && argv[..4] == ["XADD", "messages", "*", "data"] then Xadd(argv[4])
    else if |argv| >= 2 && argv[..2] == ["XDEL", "messages"] && argv == Split(text, ' ') then Xdel(text)
    else Unknown
  }

  function Reading(format: string, args: seq<string>): Command { Understood(Words(format, args), format) }

  const AUTH_FORMAT := "AUTH %s %s"
  const XRANGE_FORMAT := "XRANGE %s - + COUNT %u"
  const XADD_FORMAT := "XADD %s * %s %b"
  const MESSAGES_STREAM := "messages"
  const DATA_FIELD := "data"

  /** The words that are sent. */
  function Words(format: string, args: seq<string>): seq<string> { Argv(Split(format, ' '), args) }

  lemma KeptWord(word: string, rest: string, args: seq<string>)
    requires ' ' !in word && !Hole(word)
    ensures Words(word + " " + rest, args) == [word] + Words(rest, args)
  {
    SplitWord(word, ' ', rest);
    assert ([word] + Split(rest, ' '))[1..] == Split(rest, ' ');
  }

  lemma FilledWord(word: string, rest: string, arg: string, args: seq<string>)
    requires ' ' !in word && Hole(word)
    ensures Words(word + " " + rest, [arg] + args) == [arg] + Words(rest, args)
  {
    SplitWord(word, ' ', rest);
    assert ([word] + Split(rest, ' '))[1..] == Split(rest, ' ') && ([arg] + args)[1..] == args;
  }

  lemma LastWord(word: string, arg: string)
    requires ' ' !in word && Hole(word)
    ensures Words(word, [arg]) == [arg]
  {
    SplitWord(word, ' ', "");
    assert Argv([word][1..], [arg][1..]) == [];
  }

  lemma AuthWords(a: string, s: string, x: string, y: string)
    requires ' ' !in a && ' ' !in s && !Hole(a) && Hole(s)
    ensures Words(a + " " + (s + " " + s), [x, y]) == [a, x, y]
  {
    assert [x, y] == [x] + [y];
    KeptWord(a, s + " " + s, [x, y]);
    FilledWord(s, s, x, [y]);
    LastWord(s, y);
  }

  lemma XrangeWords(a: string, s: string, b: string, c: string, d: string, u: string, x: string, y: string)
    requires ' ' !in a && ' ' !in s && ' ' !in b && ' ' !in c && ' ' !in d && ' ' !in u
    requires !Hole(a) && Hole(s) && !Hole(b) && !Hole(c) && !Hole(d) && Hole(u)
    ensures Words(a + " " + (s + " " + (b + " " + (c + " " + (d + " " + u)))), [x, y]) == [a, x, b, c, d, y]
  {
    assert [x, y] == [x] + [y];
    KeptWord(a, s + " " + (b + " " + (c + " " + (d + " " + u))), [x, y]);
    FilledWord(s, b + " " + (c + " " + (d + " " + u)), x, [y]);
    KeptWord(b, c + " " + (d + " " + u), [y]);
    KeptWord(c, d + " " + u, [y]);
    KeptWord(d, u, [y]);
    LastWord(u, y);
  }

  lemma XaddWords(a: string, s: string, b: string, u: string, x: string, y: string, z: string)
    requires ' ' !in a && ' ' !in s && ' ' !in b && ' ' !in u && !Hole(a) && Hole(s) && !Hole(b) && Hole(u)
    ensures Words(a + " " + (s + " " + (b + " " + (s + " " + u))), [x, y, z]) == [a, x, b, y, z]
  {
    assert [x, y, z] == [x] + [y, z] && [y, z] == [y] + [z];
    KeptWord(a, s + " " + (b + " " + (s + " " + u)), [x, y, z]);
    FilledWord(s, b + " " + (s + " " + u), x, [y, z]);
    KeptWord(b, s + " " + u, [y, z]);
    FilledWord(s, u, y, [z]);
    LastWord(u, z);
  }

  lemma XrangeText()
    ensures XRANGE_FORMAT == "XRANGE" + " " + ("%s" + " " + ("-" + " " + ("+" + " " + ("COUNT" + " " + "%u"))))
  {}

  lemma XrangeUnderstood(count: string, text: string)
    requires AllDigits(count)
    ensures Understood(["XRANGE", "messages", "-", "+", "COUNT", count], text) == Xrange(Value(count))
  {}

  lemma XrangeSent(count: string)
    ensures Words(XRANGE_FORMAT, ["messages", count]) == ["XRANGE", "messages", "-", "+", "COUNT", count]
  {
    XrangeText();
    XrangeWords("XRANGE", "%s", "-", "+", "COUNT", "%u", "messages", count);
  }

  lemma FormatTexts()
    ensures AUTH_FORMAT == "AUTH" + " " + ("%s" + " " + "%s")
    ensures XADD_FORMAT == "XADD" + " " + ("%s" + " " + ("*" + " " + ("%s" + " " + "%b")))
  {}

  /** The server reads each format as what it is meant to say, whatever the arguments are. */
  lemma AuthReading(login: Login)
    ensures Reading(AUTH_FORMAT, [login.user, login.password]) == Auth(login)
  {
    FormatTexts();
    AuthWords("AUTH", "%s", login.user, login.password);
  }

  lemma XrangeReading(count: nat)
    ensures Reading(XRANGE_FORMAT, [MESSAGES_STREAM, Print(count)]) == Xrange(count)
  {
    PrintValue(count);
    XrangeSent(Print(count));
    XrangeUnderstood(Print(count), XRANGE_FORMAT);
  }

  lemma XaddReading(data: string)
    ensures Reading(XADD_FORMAT, [MESSAGES_STREAM, DATA_FIELD, data]) == Xadd(data)
  {
    FormatTexts();
    XaddWords("XADD", "%s", "*", "%b", "messages", "data", data);
  }

  /** Without arguments the words of a format are what the server gets. */
  lemma {:induction false} NothingFilled(words: seq<string>)
    ensures Argv(words, []) == words
  {
    if words != [] { NothingFilled(words[1..]); }
  }
}
