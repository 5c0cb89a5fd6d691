/** The seed inventory of Floreboard/Services/InitialInventory.swift and its `withTags` helper. */
module Seed {
  import opened Prelude
  import opened Models

  /** `withTags`: a copy of `f` that differs only in its culture tags. */
  function WithTags(f: FlowerType, tags: seq<string>): (r: FlowerType)
    ensures r.cultureTags == Some(tags)
    ensures r.(cultureTags := f.cultureTags) == f
  {
    f.(cultureTags := Some(tags))
  }

  /** One row of the seed table: every argument the table passes to `FlowerType.init` and `withTags`. */
  datatype SeedRow = SeedRow(
    name: string, color: string, quantity: int, initialStock: int, category: FlowerCategory,
    unitCost: real, retailPrice: real, meaning: string, tags: seq<string>)

  const SeedCount := 35

  const SeedRows: seq<SeedRow> := [
      SeedRow("白玫瑰", "#FFFFFF", 50, 50, Main, 5.0, 12.0, "纯洁的爱", ["western", "universal"]),
      SeedRow("粉玫瑰", "#FFC0CB", 30, 30, Main, 5.0, 15.0, "初恋、感动", ["western", "universal"]),
      SeedRow("向日葵", "#FFD700", 20, 20, Main, 6.0, 10.0, "沉默的爱、忠诚", ["western", "universal"]),
      SeedRow("尤加利叶", "#5F8575", 100, 100, Foliage, 2.0, 5.0, "恩赐", ["western", "universal"]),
      SeedRow("洋甘菊", "#FFFFE0", 60, 60, Filler, 3.0, 8.0, "逆境中的坚强", ["western", "universal"]),
      SeedRow("蓝色绣球", "#87CEEB", 15, 15, Main, 15.0, 38.0, "圆满、团聚", ["western", "universal"]),
      SeedRow("百合", "#FFFFFF", 20, 20, Main, 8.0, 20.0, "百年好合", ["chinese", "western", "universal"]),
      SeedRow("郁金香", "#FFA500", 25, 25, Main, 6.0, 12.0, "体贴、高雅", ["western", "universal"]),
      SeedRow("红玫瑰", "#DC143C", 60, 60, Main, 6.0, 15.0, "热烈的爱", ["western", "universal"]),
      SeedRow("粉康乃馨", "#FFB6C1", 40, 40, Main, 4.0, 10.0, "母爱、感激", ["western", "universal"]),
      SeedRow("扶郎花", "#FFA500", 30, 30, Main, 3.0, 8.0, "互敬互爱、有毅力", ["western", "universal"]),
      SeedRow("洋桔梗", "#E6E6FA", 30, 30, Main, 8.0, 18.0, "真诚不变的爱", ["western", "universal"]),
      SeedRow("满天星", "#FFFFFF", 50, 50, Filler, 15.0, 35.0, "清纯、配角之爱", ["western", "universal"]),
      SeedRow("龟背竹", "#228B22", 20, 20, Foliage, 6.0, 15.0, "健康长寿", ["western", "universal"]),
      SeedRow("天堂鸟", "#FF8C00", 10, 10, Main, 18.0, 45.0, "自由、潇洒", ["western", "universal"]),
      SeedRow("梅枝", "#FF6B8A", 15, 15, Main, 12.0, 28.0, "傲骨凌霜、高洁", ["chinese"]),
      SeedRow("兰花", "#E6E6FA", 10, 10, Main, 25.0, 60.0, "高洁雅士、君子之风", ["chinese", "western"]),
      SeedRow("竹枝", "#228B22", 30, 30, Foliage, 5.0, 12.0, "虚怀若谷、清雅脱俗", ["chinese", "japanese"]),
      SeedRow("菊花", "#FFD700", 25, 25, Main, 8.0, 18.0, "长寿高洁、隐逸清雅", ["chinese", "japanese"]),
      SeedRow("水仙", "#FFFACD", 20, 20, Main, 10.0, 22.0, "高洁孤傲、思念", ["chinese"]),
      SeedRow("芍药", "#FFB6C1", 12, 12, Main, 18.0, 42.0, "娇羞之美、情有独钟", ["chinese", "western"]),
      SeedRow("樱花枝", "#FFB7C5", 8, 8, Main, 20.0, 48.0, "生命无常、美的瞬间", ["japanese"]),
      SeedRow("椿花", "#DC143C", 10, 10, Main, 15.0, 35.0, "完美之爱、谦逊", ["japanese"]),
      SeedRow("松枝", "#2F4F4F", 25, 25, Foliage, 8.0, 18.0, "坚忍不拔、永恒", ["japanese", "chinese"]),
      SeedRow("桃花枝", "#FFB6C1", 12, 12, Main, 12.0, 28.0, "春意盎然、桃花运", ["japanese", "chinese"]),
      SeedRow("牡丹", "#FF1493", 15, 15, Main, 25.0, 68.0, "圆满、富贵、吉祥", ["chinese"]),
      SeedRow("海棠", "#FF69B4", 10, 10, Main, 18.0, 45.0, "游子思乡、温和", ["chinese"]),
      SeedRow("红豆", "#FF0000", 40, 40, Filler, 5.0, 12.0, "相思、喜庆", ["chinese", "universal"]),
      SeedRow("花菖蒲", "#8A2BE2", 15, 15, Main, 12.0, 28.0, "优雅的心、信者之福", ["japanese"]),
      SeedRow("枫叶枝", "#B22222", 20, 20, Foliage, 10.0, 25.0, "秋之回忆、自制", ["japanese", "chinese"]),
      SeedRow("文心兰", "#FFFF00", 25, 25, Filler, 8.0, 20.0, "快乐无忧", ["japanese", "western"]),
      SeedRow("洋牡丹", "#FFDAB9", 30, 30, Main, 10.0, 25.0, "迷人的魅力", ["western"]),
      SeedRow("飞燕草", "#4169E1", 15, 15, Main, 12.0, 30.0, "清静、正义、自由", ["western"]),
      SeedRow("银莲花", "#800080", 20, 20, Main, 10.0, 22.0, "期待、没有结果的爱", ["western"]),
      SeedRow("尤加利果", "#556B2F", 50, 50, Foliage, 6.0, 15.0, "恩赐、回忆", ["western", "universal"])
  ]

  function SeedFlower(id: string, row: SeedRow): FlowerType {
    WithTags(NewFlower(id, row.name, row.color, row.quantity, row.initialStock, row.category,
                       row.unitCost, row.retailPrice, Some(row.meaning)), row.tags)
  }

  /** `FlowerType.initialData`, given the identifiers generated for its records. */
  function InitialData(ids: seq<string>): (r: seq<FlowerType>)
    requires |ids| == SeedCount
    ensures |r| == SeedCount
    ensures forall i :: 0 <= i < |r| ==> r[i] == SeedFlower(ids[i], SeedRows[i])
  {
    seq(SeedCount, i requires 0 <= i < SeedCount => SeedFlower(ids[i], SeedRows[i]))
  }

  /** Every seed record starts with its whole initial stock on hand, nothing used, and priced above cost. */
  lemma SeedRecordsWellFormed(ids: seq<string>)
    requires |ids| == SeedCount
    ensures forall f :: f in InitialData(ids) ==>
      f.quantity == f.initialStock && f.quantity > 0 && f.totalUsed.None? &&
      f.cultureTags.Some? && |f.cultureTags.value| > 0 && 0.0 < f.unitCost < f.retailPrice
  {
  }

  /** The seed row whose name starts with `first` and ends with `last` (no two rows share both). */
  ghost function SeedIndexByEnds(first: char, last: char): int {
    if first == '白' && last == '瑰' then 0 else
    if first == '粉' && last == '瑰' then 1 else
    if first == '向' && last == '葵' then 2 else
    if first == '尤' && last == '叶' then 3 else
    if first == '洋' && last == '菊' then 4 else
    if first == '蓝' && last == '球' then 5 else
    if first == '百' && last == '合' then 6 else
    if first == '郁' && last == '香' then 7 else
    if first == '红' && last == '瑰' then 8 else
    if first == '粉' && last == '馨' then 9 else
    if first == '扶' && last == '花' then 10 else
    if first == '洋' && last == '梗' then 11 else
    if first == '满' && last == '星' then 12 else
    if first == '龟' && last == '竹' then 13 else
    if first == '天' && last == '鸟' then 14 else
    if first == '梅' && last == '枝' then 15 else
    if first == '兰' && last == '花' then 16 else
    if first == '竹' && last == '枝' then 17 else
    if first == '菊' && last == '花' then 18 else
    if first == '水' && last == '仙' then 19 else
    if first == '芍' && last == '药' then 20 else
    if first == '樱' && last == '枝' then 21 else
    if first == '椿' && last == '花' then 22 else
    if first == '松' && last == '枝' then 23 else
    if first == '桃' && last == '枝' then 24 else
    if first == '牡' && last == '丹' then 25 else
    if first == '海' && last == '棠' then 26 else
    if first == '红' && last == '豆' then 27 else
    if first == '花' && last == '蒲' then 28 else
    if first == '枫' && last == '枝' then 29 else
    if first == '文' && last == '兰' then 30 else
    if first == '洋' && last == '丹' then 31 else
    if first == '飞' && last == '草' then 32 else
    if first == '银' && last == '花' then 33 else
    if first == '尤' && last == '果' then 34 else
    -1
  }

  lemma SeedEndsIdentifyRows0To5()
    ensures forall i :: 0 <= i < 5 ==>
      |SeedRows[i].name| > 0 && SeedIndexByEnds(SeedRows[i].name[0], SeedRows[i].name[|SeedRows[i].name| - 1]) == i
  {
    forall i | 0 <= i < 5
      ensures |SeedRows[i].name| > 0 && SeedIndexByEnds(SeedRows[i].name[0], SeedRows[i].name[|SeedRows[i].name| - 1]) == i
    {
      if i == 0 {
      } else if i == 1 {
      } else if i == 2 {
      } else if i == 3 {
      } else {
        assert i == 4;
      }
    }
  }

  lemma SeedEndsIdentifyRows5To10()
    ensures forall i :: 5 <= i < 10 ==>
      |SeedRows[i].name| > 0 && SeedIndexByEnds(SeedRows[i].name[0], SeedRows[i].name[|SeedRows[i].name| - 1]) == i
  {
    forall i | 5 <= i < 10
      ensures |SeedRows[i].name| > 0 && SeedIndexByEnds(SeedRows[i].name[0], SeedRows[i].name[|SeedRows[i].name| - 1]) == i
    {
      if i == 5 {
      } else if i == 6 {
      } else if i == 7 {
      } else if i == 8 {
      } else {
        assert i == 9;
      }
    }
  }

  lemma SeedEndsIdentifyRows10To15()
    ensures forall i :: 10 <= i < 15 ==>
      |SeedRows[i].name| > 0 && SeedIndexByEnds(SeedRows[i].name[0], SeedRows[i].name[|SeedRows[i].name| - 1]) == i
  {
    forall i | 10 <= i < 15
      ensures |SeedRows[i].name| > 0 && SeedIndexByEnds(SeedRows[i].name[0], SeedRows[i].name[|SeedRows[i].name| - 1]) == i
    {
      if i == 10 {
      } else if i == 11 {
      } else if i == 12 {
      } else if i == 13 {
      } else {
        assert i == 14;
      }
    }
  }

  lemma SeedEndsIdentifyRows15To20()
    ensures forall i :: 15 <= i < 20 ==>
      |SeedRows[i].name| > 0 && SeedIndexByEnds(SeedRows[i].name[0], SeedRows[i].name[|SeedRows[i].name| - 1]) == i
  {
    forall i | 15 <= i < 20
      ensures |SeedRows[i].name| > 0 && SeedIndexByEnds(SeedRows[i].name[0], SeedRows[i].name[|SeedRows[i].name| - 1]) == i
    {
      if i == 15 {
      } else if i == 16 {
      } else if i == 17 {
      } else if i == 18 {
      } else {
        assert i == 19;
      }
    }
  }

  lemma SeedEndsIdentifyRows20To25()
    ensures forall i :: 20 <= i < 25 ==>
      |SeedRows[i].name| > 0 && SeedIndexByEnds(SeedRows[i].name[0], SeedRows[i].name[|SeedRows[i].name| - 1]) == i
  {
    forall i | 20 <= i < 25
      ensures |SeedRows[i].name| > 0 && SeedIndexByEnds(SeedRows[i].name[0], SeedRows[i].name[|SeedRows[i].name| - 1]) == i
    {
      if i == 20 {
      } else if i == 21 {
      } else if i == 22 {
      } else if i == 23 {
      } else {
        assert i == 24;
      }
    }
  }

  lemma SeedEndsIdentifyRows25To30()
    ensures forall i :: 25 <= i < 30 ==>
      |SeedRows[i].name| > 0 && SeedIndexByEnds(SeedRows[i].name[0], SeedRows[i].name[|SeedRows[i].name| - 1]) == i
  {
    forall i | 25 <= i < 30
      ensures |SeedRows[i].name| > 0 && SeedIndexByEnds(SeedRows[i].name[0], SeedRows[i].name[|SeedRows[i].name| - 1]) == i
    {
      if i == 25 {
      } else if i == 26 {
      } else if i == 27 {
      } else if i == 28 {
      } else {
        assert i == 29;
      }
    }
  }

  lemma SeedEndsIdentifyRows30To35()
    ensures forall i :: 30 <= i < 35 ==>
      |SeedRows[i].name| > 0 && SeedIndexByEnds(SeedRows[i].name[0], SeedRows[i].name[|SeedRows[i].name| - 1]) == i
  {
    forall i | 30 <= i < 35
      ensures |SeedRows[i].name| > 0 && SeedIndexByEnds(SeedRows[i].name[0], SeedRows[i].name[|SeedRows[i].name| - 1]) == i
    {
      if i == 30 {
      } else if i == 31 {
      } else if i == 32 {
      } else if i == 33 {
      } else {
        assert i == 34;
      }
    }
  }

  lemma SeedRowNamesDistinct()
    ensures forall i, j :: 0 <= i < j < SeedCount ==> SeedRows[i].name != SeedRows[j].name
  {
    SeedEndsIdentifyRows0To5();
    SeedEndsIdentifyRows5To10();
    SeedEndsIdentifyRows10To15();
    SeedEndsIdentifyRows15To20();
    SeedEndsIdentifyRows20To25();
    SeedEndsIdentifyRows25To30();
    SeedEndsIdentifyRows30To35();
  }

  /** Seed names are pairwise distinct. */
  lemma SeedNamesDistinct(ids: seq<string>)
    requires |ids| == SeedCount
    ensures forall i, j :: 0 <= i < j < SeedCount ==> InitialData(ids)[i].name != InitialData(ids)[j].name
  {
    SeedRowNamesDistinct();
    forall i | 0 <= i < SeedCount
      ensures InitialData(ids)[i].name == SeedRows[i].name
    {
    }
  }

  lemma PeonyRows()
    ensures SeedRows[25].name == "牡丹" && SeedRows[31].name == "洋牡丹"
  {
  }

  lemma PeonyInsideRanunculus()
    ensures CIContains("洋牡丹", "牡丹")
  {
    assert Fold("洋牡丹") == "洋牡丹";
    assert Fold("牡丹") == "牡丹";
    ContainsAffix("洋", "牡丹", "");
    assert "洋" + "牡丹" + "" == "洋牡丹";
  }

  /** Yet one seed name contains another: "牡丹" (index 25) lies inside "洋牡丹" (index 31). */
  lemma SeedNamesOverlap(ids: seq<string>)
    requires |ids| == SeedCount
    ensures InitialData(ids)[25].name == "牡丹" && InitialData(ids)[31].name == "洋牡丹"
    ensures CIContains(InitialData(ids)[31].name, InitialData(ids)[25].name)
  {
    var s := InitialData(ids);
    assert s[25] == SeedFlower(ids[25], SeedRows[25]);
    assert s[31] == SeedFlower(ids[31], SeedRows[31]);
    PeonyRows();
    PeonyInsideRanunculus();
  }
}
