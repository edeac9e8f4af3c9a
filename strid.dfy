/** The instrument identifier used throughout the chart and market layers:
    `strId` is `base-quote-type` (for instance `btc-usdt-spot`), read with
    `const [base, quote, type] = strId.split('-')`, and a symbol
    `base-quote` is read back with `const [base, quote] = symbol.split('-')`.
    Missing parts are `undefined` and render as "undefined" in template literals. */
module StrId {
  import opened Js

  datatype Market = Spot | Futures

  /** `${base}-${quote}`. */
  function Symbol(strId: string): string
  {
    var p := Split(strId, '-');
    Part(p, 0) + "-" + Part(p, 1)
  }

  /** The third part, `type`, possibly undefined. */
  function Kind(strId: string): Option<string>
  {
    PartOpt(Split(strId, '-'), 2)
  }

  /** `type === 'spot'` selects the spot market; anything else, undefined
      included, selects futures. */
  function Route(strId: string): Market
  {
    if Kind(strId) == Some("spot") then Spot else Futures
  }

  /** `base` of `const [base, quote] = symbol.split('-')`. */
  function Base(symbol: string): string
  {
    Part(Split(symbol, '-'), 0)
  }

  /** `quote` of `const [base, quote] = symbol.split('-')`, rendered. */
  function Quote(symbol: string): string
  {
    Part(Split(symbol, '-'), 1)
  }

  /** Reading an identifier built from three dash-free parts gives them back:
      the symbol is the first two joined by a dash, the type is the third,
      and the market is spot exactly when the type is "spot". */
  lemma {:induction false} OfParts(base: string, quote: string, kind: string)
    requires '-' !in base && '-' !in quote && '-' !in kind
    ensures Symbol(base + "-" + quote + "-" + kind) == base + "-" + quote
    ensures Kind(base + "-" + quote + "-" + kind) == Some(kind)
    ensures Route(base + "-" + quote + "-" + kind) == if kind == "spot" then Spot else Futures
  {
    var id := base + "-" + quote + "-" + kind;
    assert id == base + ['-'] + (quote + ['-'] + kind);
    SplitAtFirstSeparator(base, '-', quote + ['-'] + kind);
    SplitAtFirstSeparator(quote, '-', kind);
    SplitWithoutSeparator(kind, '-');
    assert Split(id, '-') == [base, quote, kind];
  }

  /** A symbol built from two dash-free parts is read back as those parts. */
  lemma {:induction false} SymbolParts(base: string, quote: string)
    requires '-' !in base && '-' !in quote
    ensures Base(base + "-" + quote) == base && Quote(base + "-" + quote) == quote
  {
    assert base + "-" + quote == base + ['-'] + quote;
    SplitAtFirstSeparator(base, '-', quote);
    SplitWithoutSeparator(quote, '-');
    assert Split(base + "-" + quote, '-') == [base, quote];
  }
}
