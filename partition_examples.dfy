/** Concrete suffixes run through the model of `get_partition_statement`: the examples of
    its docstring, and the suffixes it accepts although they name no month. Each statement
    is checked in three steps (the dates, the text, the parse) so that every proof stays small. */
module PartitionExamples {
  import opened Python
  import opened PartitionRange
  import Partitions

  lemma Date202005()
    ensures FormatDate(YearMonth(2020, 5)) == "2020-05-01"
  {
  }

  lemma Date202006()
    ensures FormatDate(YearMonth(2020, 6)) == "2020-06-01"
  {
  }

  lemma Date202112()
    ensures FormatDate(YearMonth(2021, 12)) == "2021-12-01"
  {
  }

  lemma Date202201()
    ensures FormatDate(YearMonth(2022, 1)) == "2022-01-01"
  {
  }

  lemma Date202101()
    ensures FormatDate(YearMonth(2021, 1)) == "2021-01-01"
  {
  }

  lemma Date202102()
    ensures FormatDate(YearMonth(2021, 2)) == "2021-02-01"
  {
  }

  lemma Date202111()
    ensures FormatDate(YearMonth(2021, 11)) == "2021-11-01"
  {
  }

  lemma Date202113()
    ensures FormatDate(YearMonth(2021, 13)) == "2021-13-01"
  {
  }

  lemma Date202121()
    ensures FormatDate(YearMonth(2021, 21)) == "2021-21-01"
  {
  }

  lemma Text202005()
    ensures ForValues(YearMonth(2020, 5), YearMonth(2020, 6)) == "FOR VALUES FROM ('2020-05-01') TO ('2020-06-01')"
  {
    Date202005();
    Date202006();
  }

  lemma Example202005()
    ensures PartitionStatement("202005") == Ok("FOR VALUES FROM ('2020-05-01') TO ('2020-06-01')")
  {
    assert Label(YearMonth(2020, 5)) == "202005";
    StatementOfLabel(YearMonth(2020, 5));
    Text202005();
  }

  lemma Text202112()
    ensures ForValues(YearMonth(2021, 12), YearMonth(2022, 1)) == "FOR VALUES FROM ('2021-12-01') TO ('2022-01-01')"
  {
    Date202112();
    Date202201();
  }

  lemma Example202112()
    ensures PartitionStatement("202112") == Ok("FOR VALUES FROM ('2021-12-01') TO ('2022-01-01')")
  {
    assert Label(YearMonth(2021, 12)) == "202112";
    StatementOfLabel(YearMonth(2021, 12));
    Text202112();
  }

  lemma Text202101()
    ensures ForValues(YearMonth(2021, 1), YearMonth(2021, 2)) == "FOR VALUES FROM ('2021-01-01') TO ('2021-02-01')"
  {
    Date202101();
    Date202102();
  }

  lemma Example202101()
    ensures PartitionStatement("202101") == Ok("FOR VALUES FROM ('2021-01-01') TO ('2021-02-01')")
  {
    assert Label(YearMonth(2021, 1)) == "202101";
    StatementOfLabel(YearMonth(2021, 1));
    Text202101();
  }

  lemma Text202111()
    ensures ForValues(YearMonth(2021, 11), YearMonth(2021, 12)) == "FOR VALUES FROM ('2021-11-01') TO ('2021-12-01')"
  {
    Date202111();
    Date202112();
  }

  lemma Example202111()
    ensures PartitionStatement("202111") == Ok("FOR VALUES FROM ('2021-11-01') TO ('2021-12-01')")
  {
    assert Label(YearMonth(2021, 11)) == "202111";
    StatementOfLabel(YearMonth(2021, 11));
    Text202111();
  }

  lemma Text202113()
    ensures ForValues(YearMonth(2021, 13), YearMonth(2021, 1)) == "FOR VALUES FROM ('2021-13-01') TO ('2021-01-01')"
  {
    Date202113();
    Date202101();
  }

  lemma Example202113()
    ensures PartitionStatement("202113") == Ok("FOR VALUES FROM ('2021-13-01') TO ('2021-01-01')")
  {
    assert Label(YearMonth(2021, 13)) == "202113";
    StatementOfLabel(YearMonth(2021, 13));
    Text202113();
  }

  lemma Text2021()
    ensures ForValues(YearMonth(2021, 21), YearMonth(2021, 1)) == "FOR VALUES FROM ('2021-21-01') TO ('2021-01-01')"
  {
    Date202121();
    Date202101();
  }

  lemma Example2021()
    ensures PartitionStatement("2021") == Ok("FOR VALUES FROM ('2021-21-01') TO ('2021-01-01')")
  {
    ShortSuffixParses();
    Text2021();
  }

  /** `"2021"[:4]` is "2021" and `"2021"[-2:]` is "21". */
  lemma ShortSuffixParses()
    ensures ParseSuffix("2021") == Ok(YearMonth(2021, 21))
  {
    assert DigitsValue("2021") == 2021 by {
      DecimalRoundTrip(2021);
      assert Decimal(2021) == "2021";
    }
    assert DigitsValue("21") == 21 by {
      DecimalRoundTrip(21);
      assert Decimal(21) == "21";
    }
    assert YearSlice("2021") == "2021" && MonthSlice("2021") == "21";
  }

  lemma ExampleLetters()
    ensures PartitionStatement("abcdef") == Err(ValueError)
  {
    assert !IsDigit("abcdef"[0]);
  }

  /** The four examples in the docstring of `get_partition_statement`. */
  lemma DocstringExamples()
    ensures PartitionStatement("202005") == Ok("FOR VALUES FROM ('2020-05-01') TO ('2020-06-01')")
    ensures PartitionStatement("202112") == Ok("FOR VALUES FROM ('2021-12-01') TO ('2022-01-01')")
    ensures PartitionStatement("202101") == Ok("FOR VALUES FROM ('2021-01-01') TO ('2021-02-01')")
    ensures PartitionStatement("202111") == Ok("FOR VALUES FROM ('2021-11-01') TO ('2021-12-01')")
  {
    Example202005();
    Example202112();
    Example202101();
    Example202111();
  }

  /** Suffixes that name no `YYYYMM` month: month 13 and the four-character "2021" (read as
      year 2021, month 21) are not rejected, and give ranges that end before they start;
      letters raise ValueError. */
  lemma UncheckedSuffixes()
    ensures PartitionStatement("202113") == Ok("FOR VALUES FROM ('2021-13-01') TO ('2021-01-01')")
    ensures PartitionStatement("2021") == Ok("FOR VALUES FROM ('2021-21-01') TO ('2021-01-01')")
    ensures PartitionStatement("abcdef") == Err(ValueError)
  {
    Example202113();
    Example2021();
    ExampleLetters();
  }

  /** `suffix[:4]` and `suffix[-2:]` skip whatever lies between them: "2021-05" parses as
      May 2021 and gives the same clause as "202105", although `partitions` holds the two
      under different keys. Its partition name does not match the ignore pattern. */
  lemma SeparatedSuffix()
    ensures ParseSuffix("2021-05") == Ok(YearMonth(2021, 5))
    ensures PartitionStatement("2021-05") == PartitionStatement("202105")
    ensures PartitionStatement("2021-05").Ok?
    ensures !Partitions.MatchesIgnorePattern(Partitions.PartitionName("t", "2021-05"))
  {
    assert Label(YearMonth(2021, 5)) == "202105";
    LabelRoundTrip(YearMonth(2021, 5));
    assert YearSlice("2021-05") == YearSlice("202105");
    assert MonthSlice("2021-05") == MonthSlice("202105");
    assert Partitions.PartitionName("t", "2021-05")[2] == '2';
  }
}
