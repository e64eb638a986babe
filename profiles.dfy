/**
 * The brand knowledge table `BRAND_FEATURES`: per brand, and per venue
 * category (the keys with a leading underscore), how strongly the venue is
 * known to satisfy each canonical requirement.
 */
module Profiles {
  /** The canonical requirements, in the order of the source's alias table. */
  datatype Req = Parking | Quiet | Business | Transit | PrivateRoom | WiFi | LongStay | KidFriendly | Open24h

  /** An entry of the knowledge table: a brand, or a category default (an underscore key in the source). */
  datatype Profile = Brand(name: string, strengths: Strengths) | CategoryDefault(name: string, strengths: Strengths)

  /**
   * How strongly an entry satisfies each requirement, in tenths, in the order
   * of `Req`; a requirement the source's dictionary omits has strength 0, as
   * `features.get(req_name, 0)` reads it.
   */
  datatype Strengths = Strengths(parking: int, quiet: int, business: int, transit: int, privateRoom: int,
                                 wifi: int, longStay: int, kidFriendly: int, open24h: int)

  function Strength(p: Profile, r: Req): int {
    match r
    case Parking => p.strengths.parking
    case Quiet => p.strengths.quiet
    case Business => p.strengths.business
    case Transit => p.strengths.transit
    case PrivateRoom => p.strengths.privateRoom
    case WiFi => p.strengths.wifi
    case LongStay => p.strengths.longStay
    case KidFriendly => p.strengths.kidFriendly
    case Open24h => p.strengths.open24h
  }

  const MEDIUM_THRESHOLD: int := 7
  const LOW_THRESHOLD: int := 8

  /** `BRAND_FEATURES`, in its declaration order; strengths in tenths. */
  const PROFILE_COUNT: nat := 57

  function ProfileAt(i: nat): Profile
    requires i < PROFILE_COUNT
  {
    match i
    case 0 => Brand("星巴克", Strengths(3, 8, 7, 0, 0, 10, 9, 0, 0))
    case 1 => Brand("瑞幸", Strengths(3, 4, 4, 0, 0, 7, 5, 0, 0))
    case 2 => Brand("Costa", Strengths(4, 9, 8, 0, 0, 10, 9, 0, 0))
    case 3 => Brand("漫咖啡", Strengths(5, 9, 6, 0, 0, 9, 10, 0, 0))
    case 4 => Brand("太平洋咖啡", Strengths(4, 8, 7, 0, 0, 9, 8, 0, 0))
    case 5 => Brand("Manner", Strengths(2, 5, 4, 0, 0, 6, 3, 0, 0))
    case 6 => Brand("Seesaw", Strengths(3, 8, 6, 0, 0, 9, 8, 0, 0))
    case 7 => Brand("M Stand", Strengths(3, 7, 5, 0, 0, 8, 7, 0, 0))
    case 8 => Brand("Tims", Strengths(4, 6, 5, 0, 0, 8, 6, 0, 0))
    case 9 => Brand("上岛咖啡", Strengths(6, 9, 8, 0, 7, 8, 9, 0, 0))
    case 10 => Brand("Zoo Coffee", Strengths(4, 7, 5, 0, 0, 8, 8, 6, 0))
    case 11 => Brand("猫屎咖啡", Strengths(4, 8, 6, 0, 0, 8, 8, 0, 0))
    case 12 => Brand("皮爷咖啡", Strengths(3, 7, 5, 0, 0, 8, 7, 0, 0))
    case 13 => Brand("咖世家", Strengths(4, 8, 7, 0, 0, 9, 8, 0, 0))
    case 14 => Brand("挪瓦咖啡", Strengths(2, 5, 4, 0, 0, 6, 4, 0, 0))
    case 15 => Brand("海底捞", Strengths(8, 2, 0, 0, 9, 0, 0, 9, 3))
    case 16 => Brand("西贝", Strengths(6, 5, 0, 0, 7, 0, 0, 7, 0))
    case 17 => Brand("外婆家", Strengths(5, 3, 0, 0, 5, 0, 0, 6, 0))
    case 18 => Brand("绿茶", Strengths(5, 4, 0, 0, 4, 0, 0, 5, 0))
    case 19 => Brand("小龙坎", Strengths(5, 2, 0, 0, 6, 0, 0, 4, 0))
    case 20 => Brand("呷哺呷哺", Strengths(4, 3, 0, 0, 0, 0, 0, 5, 0))
    case 21 => Brand("大龙燚", Strengths(5, 2, 0, 0, 5, 0, 0, 4, 0))
    case 22 => Brand("眉州东坡", Strengths(7, 6, 7, 0, 8, 0, 0, 7, 0))
    case 23 => Brand("全聚德", Strengths(7, 6, 8, 0, 9, 0, 0, 6, 0))
    case 24 => Brand("大董", Strengths(8, 8, 9, 0, 9, 0, 0, 0, 0))
    case 25 => Brand("鼎泰丰", Strengths(6, 6, 0, 0, 5, 0, 0, 7, 0))
    case 26 => Brand("南京大牌档", Strengths(5, 3, 0, 0, 6, 0, 0, 6, 0))
    case 27 => Brand("九毛九", Strengths(5, 4, 0, 0, 4, 0, 0, 6, 0))
    case 28 => Brand("太二酸菜鱼", Strengths(4, 3, 0, 0, 0, 0, 0, 4, 0))
    case 29 => Brand("湘鄂情", Strengths(7, 5, 7, 0, 8, 0, 0, 0, 0))
    case 30 => Brand("麦当劳", Strengths(5, 0, 0, 0, 0, 8, 0, 9, 8))
    case 31 => Brand("肯德基", Strengths(5, 0, 0, 0, 0, 7, 0, 9, 6))
    case 32 => Brand("必胜客", Strengths(5, 5, 0, 0, 3, 0, 0, 8, 0))
    case 33 => Brand("萨莉亚", Strengths(4, 4, 0, 0, 0, 0, 0, 7, 0))
    case 34 => Brand("汉堡王", Strengths(4, 0, 0, 0, 0, 6, 0, 7, 0))
    case 35 => Brand("赛百味", Strengths(3, 0, 0, 0, 0, 5, 4, 0, 0))
    case 36 => Brand("棒约翰", Strengths(4, 0, 0, 0, 2, 0, 0, 7, 0))
    case 37 => Brand("达美乐", Strengths(3, 0, 0, 0, 0, 0, 0, 6, 0))
    case 38 => Brand("DQ", Strengths(4, 0, 0, 0, 0, 0, 0, 9, 0))
    case 39 => Brand("哈根达斯", Strengths(0, 6, 0, 0, 0, 0, 5, 7, 0))
    case 40 => Brand("喜茶", Strengths(3, 4, 0, 0, 0, 0, 5, 0, 0))
    case 41 => Brand("奈雪的茶", Strengths(4, 5, 0, 0, 0, 6, 6, 0, 0))
    case 42 => Brand("茶百道", Strengths(2, 3, 0, 0, 0, 0, 3, 0, 0))
    case 43 => Brand("一点点", Strengths(2, 2, 0, 0, 0, 0, 2, 0, 0))
    case 44 => Brand("蜜雪冰城", Strengths(2, 2, 0, 0, 0, 0, 2, 0, 0))
    case 45 => Brand("茶颜悦色", Strengths(3, 4, 0, 0, 0, 0, 4, 0, 0))
    case 46 => Brand("古茗", Strengths(2, 3, 0, 0, 0, 0, 3, 0, 0))
    case 47 => Brand("CoCo", Strengths(2, 3, 0, 0, 0, 0, 3, 0, 0))
    case 48 => CategoryDefault("图书馆", Strengths(0, 10, 0, 0, 0, 9, 10, 0, 0))
    case 49 => CategoryDefault("书店", Strengths(0, 10, 0, 0, 0, 5, 8, 0, 0))
    case 50 => CategoryDefault("商场", Strengths(9, 0, 0, 8, 0, 0, 0, 7, 0))
    case 51 => CategoryDefault("酒店", Strengths(8, 9, 9, 0, 8, 9, 0, 0, 0))
    case 52 => CategoryDefault("电影院", Strengths(7, 0, 0, 0, 0, 0, 0, 6, 0))
    case 53 => CategoryDefault("KTV", Strengths(6, 0, 0, 0, 10, 0, 0, 0, 5))
    case 54 => CategoryDefault("健身房", Strengths(6, 0, 0, 0, 0, 5, 0, 0, 0))
    case 55 => CategoryDefault("网咖", Strengths(0, 0, 0, 0, 0, 10, 9, 0, 8))
    case _ => CategoryDefault("便利店", Strengths(0, 0, 0, 0, 0, 0, 0, 0, 9))
  }

}
