/** The grammar of internal/testproxy/metrics/metric_grammar.peg.go, as its rule comments state it. */
module MetricGrammar {
  import opened Peg

  function R(c: char): Rune { c as int }

  const INCREMENT: Rune := 0x2206

  const SPACE := Chr(R(' '))
  const QUOTE := Chr(R('"'))

  const DIGIT := Node(Digit, Range(R('0'), R('9')))
  const ALNUM := Node(Alnum, Alt(Range(R('0'), R('9')), Alt(Range(R('A'), R('Z')), Range(R('a'), R('z')))))

  const NAME_CHAR := Alt(ALNUM, OneOf([R(','), R('/'), R('.'), R('_'), R('-'), R('~')]))
  const NAME_CAT := Cat([Opt(Chr(INCREMENT)), Opt(Chr(R('~'))), NAME_CHAR, Star(NAME_CHAR)])
  const NAME_TEXT := Node(PegText, NAME_CAT)
  const QUOTED_NAME := Cat([QUOTE, NAME_TEXT, QUOTE])
  const METRIC_NAME_CAT := Cat([Alt(QUOTED_NAME, NAME_TEXT), Act(Action6)])
  const METRIC_NAME := Node(MetricName, METRIC_NAME_CAT)

  const FRACTION := Cat([Chr(R('.')), DIGIT, Star(DIGIT)])
  const VALUE_CAT := Cat([Opt(Chr(R('-'))), DIGIT, Star(DIGIT), Opt(FRACTION)])
  const METRIC_VALUE_CAT := Cat([Node(PegText, VALUE_CAT), Act(Action5)])
  const METRIC_VALUE := Node(MetricValue, METRIC_VALUE_CAT)

  const THREE_DIGITS := Cat([DIGIT, DIGIT, DIGIT])
  const TIMESTAMP_DIGITS :=
    Cat([DIGIT, DIGIT, DIGIT, DIGIT, DIGIT, DIGIT, DIGIT, DIGIT, DIGIT, DIGIT, Opt(THREE_DIGITS), Opt(THREE_DIGITS)])
  const TIMESTAMP_CAT := Cat([Node(PegText, TIMESTAMP_DIGITS), Act(Action4)])
  const TIMESTAMP := Node(Timestamp, TIMESTAMP_CAT)
  const SPACE_TIMESTAMP := Cat([SPACE, TIMESTAMP])

  const QUOTED_TAG_CHAR := Alt(ALNUM, OneOf([R('.'), R('_'), R('-'), R('/')]))
  const TAG_CHAR := Alt(ALNUM, OneOf([R('.'), R('_'), R('-')]))
  const QUOTED_TAG_TEXT := Cat([QUOTED_TAG_CHAR, Star(QUOTED_TAG_CHAR)])
  const TAG_TEXT := Cat([TAG_CHAR, Star(TAG_CHAR)])
  const QUOTED_TAG_NAME := Cat([QUOTE, Node(PegText, QUOTED_TAG_TEXT), QUOTE])
  const TAG_NAME_CAT := Cat([Alt(QUOTED_TAG_NAME, Node(PegText, TAG_TEXT)), Act(Action2)])
  const TAG_NAME := Node(TagName, TAG_NAME_CAT)

  const ESCAPED_QUOTE := Cat([Chr(R('\\')), QUOTE])
  const UNQUOTED := Cat([Not(QUOTE), Dot])
  const VALUE_UNIT := Alt(ESCAPED_QUOTE, UNQUOTED)
  const VALUE_UNITS := Cat([VALUE_UNIT, Star(VALUE_UNIT)])
  const TAG_VALUE_CAT := Cat([QUOTE, Node(PegText, VALUE_UNITS), QUOTE, Act(Action3)])
  const TAG_VALUE := Node(TagValue, TAG_VALUE_CAT)

  const TAG_CAT := Cat([TAG_NAME, Chr(R('=')), TAG_VALUE])
  const TAG := Node(Tag, TAG_CAT)
  const SPACE_TAG := Cat([SPACE, TAG])
  const TAGS_CAT := Cat([Act(Action1), TAG, Star(SPACE_TAG)])
  const TAGS := Node(Tags, TAGS_CAT)

  const HISTOGRAM_VALUE_CAT := Cat([Chr(R('#')), DIGIT, Star(DIGIT), SPACE, METRIC_VALUE])
  const HISTOGRAM_VALUE := Node(HistogramValue, HISTOGRAM_VALUE_CAT)
  const SPACE_HISTOGRAM_VALUE := Cat([SPACE, HISTOGRAM_VALUE])
  const HISTOGRAM_VALUES_CAT := Cat([HISTOGRAM_VALUE, Star(SPACE_HISTOGRAM_VALUE)])
  const HISTOGRAM_VALUES := Node(HistogramValues, HISTOGRAM_VALUES_CAT)
  const INTERVAL_CAT := Cat([Chr(R('!')), OneOf([R('D'), R('H'), R('M')]), Act(Action0)])
  const AGGREGATION_INTERVAL := Node(AggregationInterval, INTERVAL_CAT)

  const HISTOGRAM_LINE :=
    Cat([AGGREGATION_INTERVAL, Opt(SPACE_TIMESTAMP), SPACE, HISTOGRAM_VALUES, SPACE, METRIC_NAME, SPACE, TAGS, Not(Dot)])
  const METRIC_LINE :=
    Cat([METRIC_NAME, SPACE, METRIC_VALUE, Opt(SPACE_TIMESTAMP), SPACE, TAGS, Not(Dot)])
  const GRAMMAR := Node(MetricGrammarRule, Alt(HISTOGRAM_LINE, METRIC_LINE))

  predicate Sound(e: Exp) {
    Clean(e) && Productive(e)
  }

  lemma SoundCat(e: Exp)
    requires e.Cat? && forall i :: 0 <= i < |e.es| ==> Sound(e.es[i])
    ensures Sound(e)
  {
  }

  lemma DigitsSound()
    ensures Sound(DIGIT) && Sound(ALNUM) && Sound(SPACE) && Sound(QUOTE)
  {
    assert Sound(DIGIT);
    assert Sound(ALNUM);
    assert Sound(SPACE);
    assert Sound(QUOTE);
  }

  lemma MetricNameSound()
    ensures Sound(METRIC_NAME)
  {
    DigitsSound();
    assert Sound(NAME_CHAR);
    SoundCat(NAME_CAT);
    assert Sound(NAME_TEXT);
    SoundCat(QUOTED_NAME);
    SoundCat(METRIC_NAME_CAT);
    assert Sound(METRIC_NAME);
  }

  lemma MetricValueSound()
    ensures Sound(METRIC_VALUE)
  {
    DigitsSound();
    SoundCat(FRACTION);
    SoundCat(VALUE_CAT);
    SoundCat(METRIC_VALUE_CAT);
    assert Sound(METRIC_VALUE);
  }

  lemma TimestampSound()
    ensures Sound(SPACE_TIMESTAMP)
  {
    DigitsSound();
    SoundCat(THREE_DIGITS);
    SoundCat(TIMESTAMP_DIGITS);
    SoundCat(TIMESTAMP_CAT);
    assert Sound(TIMESTAMP);
    SoundCat(SPACE_TIMESTAMP);
  }

  lemma TagTextsSound()
    ensures Sound(QUOTED_TAG_NAME) && Sound(TAG_TEXT)
  {
    DigitsSound();
    assert Sound(QUOTED_TAG_CHAR);
    assert Sound(TAG_CHAR);
    SoundCat(QUOTED_TAG_TEXT);
    SoundCat(TAG_TEXT);
    SoundCat(QUOTED_TAG_NAME);
  }

  lemma TagNameSound()
    ensures Sound(TAG_NAME)
  {
    TagTextsSound();
    assert Sound(Node(PegText, TAG_TEXT)) && Sound(Act(Action2));
    assert Sound(Alt(QUOTED_TAG_NAME, Node(PegText, TAG_TEXT)));
    SoundCat(TAG_NAME_CAT);
    assert Sound(TAG_NAME);
  }

  lemma ValueUnitsSound()
    ensures Sound(VALUE_UNITS)
  {
    DigitsSound();
    SoundCat(ESCAPED_QUOTE);
    SoundCat(UNQUOTED);
    assert Sound(VALUE_UNIT);
    assert Consumes(ESCAPED_QUOTE.es[0]) && Consumes(UNQUOTED.es[1]);
    assert Consumes(ESCAPED_QUOTE) && Consumes(UNQUOTED);
    assert Consumes(VALUE_UNIT) && Sound(Star(VALUE_UNIT));
    SoundCat(VALUE_UNITS);
  }

  lemma TagValueSound()
    ensures Sound(TAG_VALUE)
  {
    DigitsSound();
    ValueUnitsSound();
    assert Sound(Node(PegText, VALUE_UNITS)) && Sound(Act(Action3));
    SoundCat(TAG_VALUE_CAT);
    assert Sound(TAG_VALUE);
  }

  lemma TagsSound()
    ensures Sound(TAGS)
  {
    DigitsSound();
    TagNameSound();
    TagValueSound();
    SoundCat(TAG_CAT);
    assert Sound(TAG);
    SoundCat(SPACE_TAG);
    assert Consumes(SPACE_TAG.es[0]);
    SoundCat(TAGS_CAT);
    assert Sound(TAGS);
  }

  lemma HistogramSound()
    ensures Sound(HISTOGRAM_VALUES)
  {
    DigitsSound();
    MetricValueSound();
    SoundCat(HISTOGRAM_VALUE_CAT);
    assert Sound(HISTOGRAM_VALUE);
    SoundCat(SPACE_HISTOGRAM_VALUE);
    assert Consumes(SPACE_HISTOGRAM_VALUE.es[0]);
    SoundCat(HISTOGRAM_VALUES_CAT);
    assert Sound(HISTOGRAM_VALUES);
  }

  lemma IntervalSound()
    ensures Sound(AGGREGATION_INTERVAL)
  {
    assert Sound(Chr(R('!'))) && Sound(OneOf([R('D'), R('H'), R('M')])) && Sound(Act(Action0));
    SoundCat(INTERVAL_CAT);
  }

  /** No rule can match the end symbol, and no repetition can run forever. */
  lemma GrammarIsSound()
    ensures Clean(GRAMMAR) && Productive(GRAMMAR)
  {
    DigitsSound();
    MetricNameSound();
    MetricValueSound();
    TimestampSound();
    TagsSound();
    HistogramSound();
    IntervalSound();
    HistogramLineSound();
    SoundCat(METRIC_LINE);
  }

  lemma HistogramLineSound()
    requires Sound(SPACE) && Sound(METRIC_NAME) && Sound(SPACE_TIMESTAMP) && Sound(TAGS) && Sound(HISTOGRAM_VALUES) && Sound(AGGREGATION_INTERVAL)
    ensures Sound(HISTOGRAM_LINE)
  {
    SoundCat(HISTOGRAM_LINE);
  }
}
