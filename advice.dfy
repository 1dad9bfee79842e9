/**
 * The advisory text shown beside each class label the pistachio-leaf
 * detection model emits: a fixed table of six curated entries and a
 * fallback entry for every other label.
 */
module Advice {

  /** What a result card shows for a class label: a title and a description with advice. */
  datatype DiseaseInfo = DiseaseInfo(title: string, description: string)

  /** The curated entries, keyed by the model's class labels (matched exactly, case included). */
  const Curated: map<string, DiseaseInfo> := map[
    "PHYPSO" := DiseaseInfo("Yaprak Lekesi (Phyllosticta)", "Yaprakta koyu dairesel noktalarla karakterizedir. **Öneri:** Hızlı mantar ilacı uygulaması ve iyi hava sirkülasyonu sağlayın."),
    "FORD FO" := DiseaseInfo("Fusarium Odaklı Hastalık", "Solma ve kahverengileşme görülebilir. **Öneri:** Hastalıklı bitki parçalarını uzaklaştırın."),
    "MYCOPT" := DiseaseInfo("Mycosphaerella Yaprak Hastalığı", "Küçük kahverengi lekeler ve erken yaprak dökümü. **Öneri:** Koruyucu bakır içerikli ilaçlar veya uygun fungisitler kullanın."),
    "SOKADE" := DiseaseInfo("Sokan ve Delen Zararlı Hasarı", "Böceklerin emgi veya delme sonucu oluşan hasar. **Öneri:** Zararlı türünü belirleyip uygun insektisit ile mücadele edin."),
    "FİZYOLOJİ" := DiseaseInfo("Çevresel Stres/Bozukluk", "Besin eksikliği veya ısı stresi. **Öneri:** Toprak analizi yapın, sulama ve gübreleme programını gözden geçirin."),
    "SONID" := DiseaseInfo("Tanımlanmamış Yaprak Hastalığı", "Modelin tespit ettiği bilinmeyen hastalık. **Öneri:** Uzman bir ziraat mühendisine başvurarak kesin teşhis koydurun.")
  ]

  /** The entry every label outside the curated table gets. */
  const Unknown: DiseaseInfo := DiseaseInfo("Bilinmeyen Etiket", "Bu etiket için detaylı bilgi bulunmamaktadır.")

  /**
   * The info card for a label. Total over all strings: a curated label gets
   * its entry, anything else the fallback, and the fallback title is shown
   * exactly when the label is not curated.
   */
  function Lookup(classLabel: string): (info: DiseaseInfo)
    ensures classLabel in Curated ==> info == Curated[classLabel]
    ensures info == Unknown <==> classLabel !in Curated
    ensures info.title == Unknown.title <==> classLabel !in Curated
  {
    if classLabel in Curated then Curated[classLabel] else Unknown
  }

  /** The six curated labels and the exact pair each one is shown with. */
  lemma CuratedEntries()
    ensures Curated.Keys == {"PHYPSO", "FORD FO", "MYCOPT", "SOKADE", "FİZYOLOJİ", "SONID"}
    ensures Lookup("PHYPSO") == DiseaseInfo("Yaprak Lekesi (Phyllosticta)", "Yaprakta koyu dairesel noktalarla karakterizedir. **Öneri:** Hızlı mantar ilacı uygulaması ve iyi hava sirkülasyonu sağlayın.")
    ensures Lookup("FORD FO") == DiseaseInfo("Fusarium Odaklı Hastalık", "Solma ve kahverengileşme görülebilir. **Öneri:** Hastalıklı bitki parçalarını uzaklaştırın.")
    ensures Lookup("MYCOPT") == DiseaseInfo("Mycosphaerella Yaprak Hastalığı", "Küçük kahverengi lekeler ve erken yaprak dökümü. **Öneri:** Koruyucu bakır içerikli ilaçlar veya uygun fungisitler kullanın.")
    ensures Lookup("SOKADE") == DiseaseInfo("Sokan ve Delen Zararlı Hasarı", "Böceklerin emgi veya delme sonucu oluşan hasar. **Öneri:** Zararlı türünü belirleyip uygun insektisit ile mücadele edin.")
    ensures Lookup("FİZYOLOJİ") == DiseaseInfo("Çevresel Stres/Bozukluk", "Besin eksikliği veya ısı stresi. **Öneri:** Toprak analizi yapın, sulama ve gübreleme programını gözden geçirin.")
    ensures Lookup("SONID") == DiseaseInfo("Tanımlanmamış Yaprak Hastalığı", "Modelin tespit ettiği bilinmeyen hastalık. **Öneri:** Uzman bir ziraat mühendisine başvurarak kesin teşhis koydurun.")
  {
  }

  /** Any label outside the six gets the fixed fallback pair: the lookup never fails. */
  lemma UnknownLabelFallback(classLabel: string)
    requires classLabel !in {"PHYPSO", "FORD FO", "MYCOPT", "SOKADE", "FİZYOLOJİ", "SONID"}
    ensures Lookup(classLabel) == DiseaseInfo("Bilinmeyen Etiket", "Bu etiket için detaylı bilgi bulunmamaktadır.")
  {
  }

  /**
   * Labels are matched exactly: a lower-case label, or the physiology label
   * written with a dotless capital I, falls back to the unknown entry.
   */
  lemma LabelsMatchExactly()
    ensures Lookup("phypso") == Unknown
    ensures Lookup("FIZYOLOJI") == Unknown
    ensures Lookup("FİZYOLOJİ") != Unknown
  {
  }

  /** Distinct curated labels are shown with distinct titles, so a card's title names its label. */
  lemma TitlesIdentifyLabels(a: string, b: string)
    requires a in Curated && b in Curated
    ensures Lookup(a).title == Lookup(b).title <==> a == b
  {
  }
}
