/** The shell's recursive-descent parser (user/sh.c): a cursor that moves over the line, and
    the pass that ends every word with a NUL. */
module ShParser {
  import opened Common
  import opened ShGrammar
  import opened ShWords
  import opened ShTokens
  import opened ShTerminate

  /** What a parsing function gives back, unless it panics. */
  datatype Result = Fine(cmd: Cmd<Span>) | Panic(error: Error)

  datatype RedirsResult = Got(rs: seq<Redirect<Span>>) | NoFileName

  /** What gettoken returns for a token. */
  function Kind(t: Tok<Span>): (r: char) {
    match t
    case Word(_) => 'a'
    case Bar => '|'
    case Open => '('
    case Close => ')'
    case Semi => ';'
    case Amp => '&'
    case Arrow(m) => match m case In => '<' case Out => '>' case Append => '+'
  }

  /** The character peek sees for a token that is not a word. */
  predicate Shows(t: Tok<Span>, toks: string) {
    match t
    case Word(_) => false
    case Arrow(m) => (if m == In then '<' else '>') in toks
    case _ => Kind(t) in toks
  }

  /** The next token is one of toks. */
  predicate At(ts: seq<Tok<Span>>, toks: string) { ts != [] && Shows(ts[0], toks) }

  lemma AtArrow(ts: seq<Tok<Span>>)
    ensures At(ts, "<>") <==> ts != [] && ts[0].Arrow?
  {}

  lemma AtStop(ts: seq<Tok<Span>>)
    ensures At(ts, "|)&;") <==> ts != [] && Stops(ts)
  {}

  lemma AtOne(ts: seq<Tok<Span>>)
    ensures At(ts, "&") <==> ts != [] && ts[0].Amp?
    ensures At(ts, ";") <==> ts != [] && ts[0].Semi?
    ensures At(ts, "|") <==> ts != [] && ts[0].Bar?
    ensures At(ts, "(") <==> ts != [] && ts[0].Open?
    ensures At(ts, ")") <==> ts != [] && ts[0].Close?
  {}

  /** The result and the tokens left agree with the grammar. */
  predicate Agrees(p: Parse<Span>, r: Result, left: seq<Tok<Span>>) {
    match p
    case Err(e) => r == Panic(e)
    case Ok(c, rest) => r == Fine(c) && left == rest
  }

  predicate RedirsAgree(p: Redirs<Span>, r: RedirsResult, left: seq<Tok<Span>>) {
    if p.NoFile? then r == NoFileName else r == Got(p.rs) && left == p.rest
  }

  /** Redirections found before those of p. */
  function Before(rs: seq<Redirect<Span>>, p: Redirs<Span>): (r: Redirs<Span>) {
    if p.NoFile? then NoFile else Found(rs + p.rs, p.rest)
  }

  lemma BeforeOne(rs: seq<Redirect<Span>>, ts: seq<Tok<Span>>)
    requires |ts| >= 2 && ts[0].Arrow? && ts[1].Word?
    ensures Before(rs, PRedirs(ts)) == Before(rs + [Redirect(ts[0].mode, ts[1].w)], PRedirs(ts[2..]))
  {
    var r := Redirect(ts[0].mode, ts[1].w);
    if PRedirs(ts[2..]).Found? {
      assert rs + ([r] + PRedirs(ts[2..]).rs) == rs + [r] + PRedirs(ts[2..]).rs;
    }
  }

  class Parser {
    const buf: array<char>
    const es: nat
    var s: nat

    ghost predicate Terminated()
      reads buf
    {
      es < buf.Length && buf[es] == NUL && forall k: nat :: k < es ==> buf[k] != NUL
    }

    ghost predicate Ready()
      reads this, buf
    {
      Terminated() && s <= es
    }

    ghost function Line(): (r: string)
      requires es < buf.Length
      reads buf
    {
      buf[..es]
    }

    /** The tokens the cursor has yet to pass. */
    ghost function Left(): (r: seq<Tok<Span>>)
      requires Ready()
      reads this, buf
    {
      Lex(Line(), s)
    }

    /** parsecmd's start: es is found by strlen. */
    constructor (line: array<char>)
      requires exists k: nat :: k < line.Length && line[k] == NUL
      ensures buf == line && s == 0 && Ready()
    {
      var i := 0;
      ghost var end: nat :| end < line.Length && line[end] == NUL;
      while line[i] != NUL
        invariant i <= end && forall k: nat :: k < i ==> line[k] != NUL
        decreases end - i
      {
        i := i + 1;
      }
      buf, es, s := line, i, 0;
    }

    method SkipSpace()
      requires Ready()
      modifies this`s
      ensures Ready() && s == Skip(Line(), old(s)) && Left() == old(Left())
    {
      ghost var line, start := Line(), s;
      while s < es && IsSpace(buf[s])
        invariant Ready() && Line() == line && Skip(line, s) == Skip(line, start)
      {
        s := s + 1;
      }
      LexSkip(line, start);
    }

    method EndWord(from: nat) returns (i: nat)
      requires Ready() && from <= es
      ensures i == WordEnd(Line(), from)
    {
      i := from;
      while i < es && !IsSpace(buf[i]) && !IsSymbol(buf[i])
        invariant from <= i <= es && WordEnd(Line(), i) == WordEnd(Line(), from)
      {
        i := i + 1;
      }
    }

    /** The switch in gettoken: what stands at the cursor, and where it ends. */
    method Scan() returns (ret: char, e: nat)
      requires Ready() && (s < es ==> !IsSpace(buf[s]))
      ensures s == es ==> ret == NUL && e == es
      ensures s < es ==> First(Line(), s).1 == e && ret == Kind(First(Line(), s).0)
    {
      ret, e := buf[s], s;
      if ret == NUL {
      } else if ret in "|();&<" {
        e := s + 1;
      } else if ret == '>' {
        e := s + 1;
        if buf[e] == '>' {
          ret, e := '+', s + 2;
        }
      } else {
        ret := 'a';
        e := EndWord(s);
      }
    }

    /** gettoken. */
    method GetToken() returns (ret: char, q: nat, eq: nat)
      requires Ready()
      modifies this`s
      ensures Ready() && old(s) <= s
      ensures old(Left()) == [] ==> ret == NUL && Left() == []
      ensures old(Left()) != [] ==> ret == Kind(old(Left())[0]) && Left() == old(Left())[1..] && old(s) < s
      ensures old(Left()) != [] && ret == 'a' ==> old(Left())[0] == Word(Span(q, eq))
    {
      ghost var line := Line();
      SkipSpace();
      q := s;
      ret, eq := Scan();
      s := eq;
      SkipSpace();
    }

    /** peek. */
    method Peek(toks: string) returns (b: bool)
      requires Ready() && forall c :: c in toks ==> IsSymbol(c)
      modifies this`s
      ensures Ready() && Left() == old(Left()) && old(s) <= s
      ensures b <==> At(Left(), toks)
    {
      SkipSpace();
      b := buf[s] != NUL && buf[s] in toks;
    }

    /** One round of the loop in parseredirs. */
    method ParseRedir() returns (ok: bool, r: Redirect<Span>)
      requires Ready() && Left() != [] && Left()[0].Arrow?
      modifies this`s
      ensures Ready() && old(s) < s
      ensures ok <==> |old(Left())| >= 2 && old(Left())[1].Word?
      ensures ok ==> r == Redirect(old(Left())[0].mode, old(Left())[1].w) && Left() == old(Left())[2..]
    {
      ghost var ts := Left();
      var tok, _, _ := GetToken();
      var ret, q, eq := GetToken();
      ok := ret == 'a';
      r := Redirect(if tok == '<' then In else if tok == '>' then Out else Append, Span(q, eq));
    }

    /** parseredirs, up to wrapping the redirections round the command. */
    method ParseRedirs() returns (r: RedirsResult)
      requires Ready()
      modifies this`s
      ensures Ready() && old(s) <= s
      ensures RedirsAgree(PRedirs(old(Left())), r, Left())
    {
      ghost var start := Left();
      var rs := [];
      var more := Peek("<>");
      while more
        invariant Ready() && old(s) <= s
        invariant more <==> At(Left(), "<>")
        invariant PRedirs(start) == Before(rs, PRedirs(Left()))
        decreases es - s
      {
        ghost var ts := Left();
        AtArrow(ts);
        var ok, redirect := ParseRedir();
        if !ok {
          return NoFileName;
        }
        BeforeOne(rs, ts);
        rs := rs + [redirect];
        more := Peek("<>");
      }
      AtArrow(Left());
      assert PRedirs(Left()) == Found([], Left());
      r := Got(rs);
    }

    /** parseline. */
    method ParseLine() returns (r: Result)
      requires Ready()
      modifies this`s
      ensures Ready() && old(s) <= s
      ensures Agrees(PLine(old(Left())), r, Left())
      decreases es - s, 3
    {
      ghost var line := Line();
      r := ParsePipe();
      if r.Panic? { return; }
      r := ParseBacks(r.cmd);
      var semi := Peek(";");
      AtOne(Left());
      if semi {
        var left := r.cmd;
        var _, _, _ := GetToken();
        r := ParseLine();
        if r.Fine? {
          r := Fine(List(left, r.cmd));
        }
      }
    }

    /** The loop over '&' in parseline. */
    method ParseBacks(cmd: Cmd<Span>) returns (r: Result)
      requires Ready()
      modifies this`s
      ensures Ready() && old(s) <= s
      ensures r.Fine? && Backs(cmd, old(Left())) == Ok(r.cmd, Left())
    {
      ghost var start := Left();
      r := Fine(cmd);
      var more := Peek("&");
      while more
        invariant Ready() && old(s) <= s && r.Fine?
        invariant more <==> At(Left(), "&")
        invariant Backs(cmd, start) == Backs(r.cmd, Left())
        decreases es - s
      {
        AtOne(Left());
        var _, _, _ := GetToken();
        r := Fine(Back(r.cmd));
        more := Peek("&");
      }
      AtOne(Left());
    }

    /** parsepipe. */
    method ParsePipe() returns (r: Result)
      requires Ready()
      modifies this`s
      ensures Ready() && old(s) <= s
      ensures Agrees(PPipe(old(Left())), r, Left())
      decreases es - s, 2
    {
      r := ParseExec();
      if r.Panic? { return; }
      var bar := Peek("|");
      AtOne(Left());
      if bar {
        var left := r.cmd;
        var _, _, _ := GetToken();
        r := ParsePipe();
        if r.Fine? {
          r := Fine(Pipe(left, r.cmd));
        }
      }
    }

    /** parseblock; its first panic cannot happen. */
    method ParseBlock() returns (r: Result)
      requires Ready() && Left() != [] && Left()[0].Open?
      modifies this`s
      ensures Ready() && old(s) <= s
      ensures Agrees(PExec(old(Left())), r, Left())
      decreases es - s, 0
    {
      var open := Peek("(");
      AtOne(Left());
      assert open;  // no panic("parseblock")
      var _, _, _ := GetToken();
      r := ParseLine();
      if r.Panic? { return; }
      var close := Peek(")");
      AtOne(Left());
      if !close {
        return Panic(MissingClose);
      }
      var _, _, _ := GetToken();
      var rr := ParseRedirs();
      r := if rr.NoFileName? then Panic(MissingFile) else Fine(Wrap(r.cmd, rr.rs));
    }

    /** parseexec: the words go into the exec node at the bottom, whatever redirections
        have been wrapped round it meanwhile. */
    method ParseExec() returns (r: Result)
      requires Ready()
      modifies this`s
      ensures Ready() && old(s) <= s
      ensures Agrees(PExec(old(Left())), r, Left())
      decreases es - s, 1
    {
      var open := Peek("(");
      AtOne(Left());
      if open {
        r := ParseBlock();
        return;
      }
      var rr := ParseRedirs();
      if rr.NoFileName? {
        return Panic(MissingFile);
      }
      r := ParseArgs(rr.rs);
    }

    method ParseArgs(rs0: seq<Redirect<Span>>) returns (r: Result)
      requires Ready()
      modifies this`s
      ensures Ready() && old(s) <= s
      ensures Agrees(PArgs(old(Left()), [], rs0), r, Left())
    {
      ghost var start := Left();
      var args, rs := [], rs0;
      var stop := Peek("|)&;");
      while !stop
        invariant Ready() && old(s) <= s && |args| < MAXARGS
        invariant stop <==> At(Left(), "|)&;")
        invariant PArgs(start, [], rs0) == PArgs(Left(), args, rs)
        decreases es - s, !stop
      {
        AtStop(Left());
        var tok, q, eq := GetToken();
        if tok == NUL {
          break;
        }
        if tok != 'a' {
          return Panic(Syntax);
        }
        args := args + [Span(q, eq)];
        if |args| >= MAXARGS {
          return Panic(TooManyArgs);
        }
        var rr := ParseRedirs();
        if rr.NoFileName? {
          return Panic(MissingFile);
        }
        rs := rs + rr.rs;
        stop := Peek("|)&;");
      }
      AtStop(Left());
      r := Fine(Wrap(Exec(args), rs));
    }

    /** nulterminate writes a NUL at the end of every word, and nowhere else. */
    method NulTerminate(cmd: Cmd<Span>)
      requires forall e :: e in Ends(cmd) ==> e < buf.Length
      modifies buf
      ensures forall k: nat :: k < buf.Length ==> buf[k] == if k in Ends(cmd) then NUL else old(buf[k])
      decreases cmd
    {
      match cmd
      case Exec(args) =>
        var i := 0;
        while i < |args|
          invariant i <= |args|
          invariant forall k: nat :: k < buf.Length ==> buf[k] == if k in EndsOf(args[..i]) then NUL else old(buf[k])
        {
          assert args[..i + 1] == args[..i] + [args[i]];
          assert EndsOf(args[..i + 1]) == EndsOf(args[..i]) + {args[i].eq};
          assert args[i].eq in Ends(cmd);
          buf[args[i].eq] := NUL;
          i := i + 1;
        }
        assert args[..i] == args;
      case Redir(d, to) =>
        assert Ends(cmd) == Ends(d) + {to.file.eq};
        NulTerminate(d);
        buf[to.file.eq] := NUL;
      case Pipe(l, r) =>
        assert Ends(cmd) == Ends(l) + Ends(r);
        NulTerminate(l);
        NulTerminate(r);
      case List(l, r) =>
        assert Ends(cmd) == Ends(l) + Ends(r);
        NulTerminate(l);
        NulTerminate(r);
      case Back(d) =>
        assert Ends(cmd) == Ends(d);
        NulTerminate(d);
    }

    /** parsecmd: it accepts what the grammar accepts, and every argument and file name of
        the command then reads as exactly its token. */
    method ParseCmd() returns (r: Result)
      requires Ready() && s == 0
      modifies this`s, buf
      ensures buf.Length > es
      ensures Agrees(PCmd(old(Left())), r, [])
      ensures r.Fine? ==> AllWords(Reads(old(Line()), buf[..]), r.cmd)
    {
      ghost var line, ts := Line(), Left();
      LexWords(line, 0);
      LineSound(Whole(line), ts);
      r := ParseLine();
      if r.Panic? { return; }
      SkipSpace();
      if s != es {
        return Panic(Syntax);
      }
      EndsAllOk(line, r.cmd);
      NulTerminate(r.cmd);
      assert Cut(line, buf[..], Ends(r.cmd));
      AllRead(line, buf[..], Ends(r.cmd), r.cmd);
    }
  }
}
