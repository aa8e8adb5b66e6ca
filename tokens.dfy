/** check_tokens: the start-up check that every credential is configured. */
module Tokens {
  import opened Wrappers

  /** One (name, value) entry of the tuple; an unset environment variable is None. */
  datatype Token = Token(name: string, value: Option<string>)

  /** The tuple as the source builds it: the chat-id entry holds the bot token. */
  function TokensAsWritten(practicum: Option<string>, telegram: Option<string>, chatId: Option<string>): (r: seq<Token>)
    ensures |r| == 3 && r[2].name == "ID чата"
    ensures forall i :: 0 <= i < |r| ==> r[i].value in {practicum, telegram}
  {
    [Token("Практикум токен", practicum), Token("Телеграм токен", telegram), Token("ID чата", telegram)]
  }

  /** The tuple with the chat-id entry holding the chat id. */
  function TokensIntended(practicum: Option<string>, telegram: Option<string>, chatId: Option<string>): seq<Token>
  {
    [Token("Практикум токен", practicum), Token("Телеграм токен", telegram), Token("ID чата", chatId)]
  }

  predicate AllPresent(tokens: seq<Token>)
  {
    forall i :: 0 <= i < |tokens| ==> tokens[i].value.Some?
  }

  /** The names of the unset entries, in tuple order: what the check logs as critical. */
  function Missing(tokens: seq<Token>): (r: seq<string>)
    ensures |r| <= |tokens|
    ensures r == [] <==> AllPresent(tokens)
    ensures forall i :: 0 <= i < |tokens| && tokens[i].value.None? ==> tokens[i].name in r
    ensures forall x :: x in r ==> exists i :: 0 <= i < |tokens| && tokens[i].value.None? && tokens[i].name == x
  {
    if tokens == [] then []
    else
      var last := tokens[|tokens| - 1];
      Missing(tokens[..|tokens| - 1]) + (if last.value.None? then [last.name] else [])
  }

  /** check_tokens' loop: visits every entry, logs each unset one and clears the flag;
      it does not stop at the first unset entry. */
  method CheckTokens(tokens: seq<Token>) returns (check: bool, logged: seq<string>)
    ensures check <==> AllPresent(tokens)
    ensures logged == Missing(tokens)
  {
    check := true;
    logged := [];
    for i := 0 to |tokens|
      invariant logged == Missing(tokens[..i])
      invariant check <==> logged == []
    {
      assert tokens[..i + 1][..i] == tokens[..i];
      if tokens[i].value.None? {
        logged := logged + [tokens[i].name];
        check := false;
      }
    }
    assert tokens[..|tokens|] == tokens;
  }

  /** As written, the outcome ignores the chat id. */
  lemma AsWrittenIgnoresChatId(practicum: Option<string>, telegram: Option<string>, chatId: Option<string>)
    ensures AllPresent(TokensAsWritten(practicum, telegram, chatId)) <==> practicum.Some? && telegram.Some?
  {
    var t := TokensAsWritten(practicum, telegram, chatId);
    if practicum.Some? && telegram.Some? {
      assert t[0].value.Some? && t[1].value.Some? && t[2].value.Some?;
    } else {
      assert t[0].value.None? || t[1].value.None?;
    }
  }

  /** The chat id is unset, yet the as-written tuple passes and logs nothing. */
  lemma ChatIdUnsetPasses(practicum: string, telegram: string)
    ensures AllPresent(TokensAsWritten(Some(practicum), Some(telegram), None))
    ensures Missing(TokensAsWritten(Some(practicum), Some(telegram), None)) == []
  {
    AsWrittenIgnoresChatId(Some(practicum), Some(telegram), None);
  }

  /** With the intended tuple, the check passes exactly when all three are set. */
  lemma IntendedChecksEveryToken(practicum: Option<string>, telegram: Option<string>, chatId: Option<string>)
    ensures AllPresent(TokensIntended(practicum, telegram, chatId)) <==>
              practicum.Some? && telegram.Some? && chatId.Some?
  {
    var t := TokensIntended(practicum, telegram, chatId);
    if practicum.Some? && telegram.Some? && chatId.Some? {
      assert t[0].value.Some? && t[1].value.Some? && t[2].value.Some?;
    } else {
      assert t[0].value.None? || t[1].value.None? || t[2].value.None?;
    }
  }
}
